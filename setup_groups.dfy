/**
 * The management command that bootstraps the role groups: a fixed configuration of four
 * roles, each with a list of permission tags `app_label.codename`. Each configured role
 * is created (or, with `force`, rebuilt) with exactly those of its tags that name an
 * existing permission; tags that do not resolve are reported and skipped.
 */
module SetupGroups {
  import opened Common
  import opened UserModels
  import opened Database

  datatype RoleConfig = RoleConfig(name: string, description: string, perms: seq<string>)

  const ADMIN_PERMS: seq<string> := [
    "user.manage_organization", "user.view_organization_stats", "user.manage_organization_users",
    "user.manage_vehicles", "user.drive_vehicles", "user.view_vehicle_reports",
    "user.create_trips", "user.edit_own_trips", "user.edit_all_trips", "user.delete_trips", "user.approve_trips",
    "user.view_reports", "user.generate_reports", "user.export_reports",
    "user.manage_accounting", "user.view_financial_data", "user.manage_expenses",
    "user.access_admin_panel", "user.manage_system_settings",
    "user.add_customuser", "user.change_customuser", "user.delete_customuser", "user.view_customuser"]

  const DRIVER_PERMS: seq<string> := [
    "user.drive_vehicles", "user.view_vehicle_reports",
    "user.create_trips", "user.edit_own_trips",
    "user.view_reports",
    "user.view_customuser"]

  const ACCOUNTANT_PERMS: seq<string> := [
    "user.view_organization_stats",
    "user.approve_trips", "user.edit_all_trips",
    "user.view_reports", "user.generate_reports", "user.export_reports",
    "user.manage_accounting", "user.view_financial_data", "user.manage_expenses",
    "user.view_customuser", "user.change_customuser"]

  const USER_PERMS: seq<string> := [
    "user.create_trips", "user.edit_own_trips",
    "user.view_reports",
    "user.view_customuser"]

  /** The configured roles, in the order the command processes them. */
  const ROLES_CONFIG: seq<RoleConfig> := [
    RoleConfig("Administrátori", "Plné oprávnenia pre správu organizácie", ADMIN_PERMS),
    RoleConfig("Vodiči", "Oprávnenia pre vodičov vozidiel", DRIVER_PERMS),
    RoleConfig("Účtovníci", "Oprávnenia pre účtovníctvo a finančné výkazy", ACCOUNTANT_PERMS),
    RoleConfig("Používatelia", "Základné oprávnenia pre bežných používateľov", USER_PERMS)
  ]

  /** The role names of a configuration. */
  function ConfigNames(cs: seq<RoleConfig>): set<string> {
    set c | c in cs :: c.name
  }

  predicate DistinctConfig(cs: seq<RoleConfig>) {
    forall i, j :: 0 <= i < j < |cs| ==> cs[i].name != cs[j].name
  }

  /** The configuration names four distinct roles, three of which the user model checks for. */
  lemma ConfigShape()
    ensures |ROLES_CONFIG| == 4 && DistinctConfig(ROLES_CONFIG)
    ensures ConfigNames(ROLES_CONFIG) == {ADMIN_GROUP, DRIVER_GROUP, ACCOUNTANT_GROUP, "Používatelia"}
    ensures |ROLES_CONFIG[0].perms| == 23 && |ROLES_CONFIG[1].perms| == 6
    ensures |ROLES_CONFIG[2].perms| == 11 && |ROLES_CONFIG[3].perms| == 4
  {
    assert ROLES_CONFIG[0].name == ADMIN_GROUP && ROLES_CONFIG[0] in ROLES_CONFIG;
    assert ROLES_CONFIG[1].name == DRIVER_GROUP && ROLES_CONFIG[1] in ROLES_CONFIG;
    assert ROLES_CONFIG[2].name == ACCOUNTANT_GROUP && ROLES_CONFIG[2] in ROLES_CONFIG;
    assert ROLES_CONFIG[3].name == "Používatelia" && ROLES_CONFIG[3] in ROLES_CONFIG;
  }

  /**
   * `tag.split('.', 1)` unpacked into an app label and a codename: the text before the
   * first dot and the text after it. Unpacking fails (a `ValueError`) when there is no dot.
   */
  function SplitTag(tag: string): (r: Option<(string, string)>)
    ensures r.None? <==> '.' !in tag
    ensures r.Some? ==> r.value.0 + "." + r.value.1 == tag && '.' !in r.value.0
  {
    var i := FindIndex(tag, (c: char) => c == '.');
    if i == -1 then None
    else
      assert tag[..i] + "." + tag[i + 1..] == tag;
      Some((tag[..i], tag[i + 1..]))
  }

  /** Splitting a joined tag whose app label has no dot gives back both halves. */
  lemma {:induction false} SplitJoin(app: string, code: string)
    requires '.' !in app
    ensures SplitTag(app + "." + code) == Some((app, code))
  {
    var tag := app + "." + code;
    var i := FindIndex(tag, (c: char) => c == '.');
    assert forall j :: 0 <= j < |app| ==> tag[j] == app[j] && tag[j] != '.';
    assert tag[|app|] == '.';
    assert i == |app|;
    assert tag[..i] == app && tag[i + 1..] == code;
  }

  /** The (app label, codename) pairs for which a permission row exists. */
  type Catalog = set<(string, string)>

  predicate Resolves(catalog: Catalog, tag: string) {
    SplitTag(tag).Some? && SplitTag(tag).value in catalog
  }

  /** What the command writes out other than progress lines. */
  datatype Message =
    | Deleting(names: seq<string>)
    | Skipping(group: string)
    | UnknownPermission(tag: string)
    | BadFormat(tag: string)

  /** The outcome of filling one group: its permissions, `permissions_added`, the reports. */
  datatype Fill = Fill(granted: set<string>, added: nat, messages: seq<Message>)

  /**
   * Processing the tags of one role in order: a resolving tag is added to the group and
   * counted; a tag without a dot and a tag naming no permission are each reported once.
   */
  function FillOf(catalog: Catalog, tags: seq<string>): Fill
    decreases |tags|
  {
    if tags == [] then Fill({}, 0, [])
    else
      var f := FillOf(catalog, tags[..|tags| - 1]);
      var t := tags[|tags| - 1];
      match SplitTag(t)
      case None => f.(messages := f.messages + [BadFormat(t)])
      case Some(p) =>
        if p in catalog then Fill(f.granted + {t}, f.added + 1, f.messages)
        else f.(messages := f.messages + [UnknownPermission(t)])
  }

  /**
   * A role's group receives exactly its resolving tags; every tag is either counted in
   * `permissions_added` or reported, and each report names an unresolved tag of the role.
   */
  lemma {:induction false} FillFacts(catalog: Catalog, tags: seq<string>)
    ensures var f := FillOf(catalog, tags);
      (forall t :: t in f.granted <==> t in tags && Resolves(catalog, t)) &&
      f.added + |f.messages| == |tags| &&
      |f.granted| <= f.added &&
      forall k :: 0 <= k < |f.messages| ==>
        (f.messages[k].UnknownPermission? && f.messages[k].tag in tags && !Resolves(catalog, f.messages[k].tag)) ||
        (f.messages[k].BadFormat? && f.messages[k].tag in tags && '.' !in f.messages[k].tag)
    decreases |tags|
  {
    if tags != [] {
      var init := tags[..|tags| - 1];
      var t := tags[|tags| - 1];
      assert tags == init + [t];
      FillFacts(catalog, init);
      var f0 := FillOf(catalog, init);
      assert forall x :: x in tags <==> x in init || x == t;
      match SplitTag(t) {
        case None =>
          assert FillOf(catalog, tags) == f0.(messages := f0.messages + [BadFormat(t)]);
        case Some(p) =>
          if p in catalog {
            assert FillOf(catalog, tags) == Fill(f0.granted + {t}, f0.added + 1, f0.messages);
          } else {
            assert FillOf(catalog, tags) == f0.(messages := f0.messages + [UnknownPermission(t)]);
          }
      }
    }
  }

  /** The inner loop: resolves each tag of one role and counts the resolved ones. */
  method FillGroup(catalog: Catalog, tags: seq<string>) returns (f: Fill)
    ensures f == FillOf(catalog, tags)
  {
    var granted: set<string> := {};
    var added := 0;
    var messages: seq<Message> := [];
    var j := 0;
    while j < |tags|
      invariant 0 <= j <= |tags|
      invariant Fill(granted, added, messages) == FillOf(catalog, tags[..j])
    {
      var t := tags[j];
      assert tags[..j + 1][..j] == tags[..j];
      match SplitTag(t) {
        case None =>
          messages := messages + [BadFormat(t)];
        case Some(p) =>
          if p in catalog {
            granted := granted + {t};
            added := added + 1;
          } else {
            messages := messages + [UnknownPermission(t)];
          }
      }
      j := j + 1;
    }
    assert tags[..|tags|] == tags;
    f := Fill(granted, added, messages);
  }

  lemma {:induction false} GroupNamesConcat(a: Registry, b: Registry)
    ensures GroupNames(a + b) == GroupNames(a) + GroupNames(b)
  {
    forall x | x in GroupNames(a + b) ensures x in GroupNames(a) + GroupNames(b) {
      var g :| g in a + b && g.name == x;
    }
    forall x | x in GroupNames(a) + GroupNames(b) ensures x in GroupNames(a + b) {
      if x in GroupNames(a) {
        var g :| g in a && g.name == x;
        assert g in a + b;
      } else {
        var g :| g in b && g.name == x;
        assert g in a + b;
      }
    }
  }

  /** `Group.objects.get_or_create(name=...)` looks the name up: its index in the table, or -1. */
  function GroupIndex(reg: Registry, name: string): (i: int)
    ensures -1 <= i < |reg|
    ensures i >= 0 ==> reg[i].name == name
    ensures i == -1 <==> name !in GroupNames(reg)
  {
    if reg == [] then -1
    else if reg[0].name == name then 0
    else
      var k := GroupIndex(reg[1..], name);
      assert reg == [reg[0]] + reg[1..];
      GroupNamesConcat([reg[0]], reg[1..]);
      if k == -1 then -1 else k + 1
  }

  /** `Group.objects.filter(name__in=names)`: the groups with one of the names, in order. */
  function Named(reg: Registry, names: set<string>): (r: Registry)
    ensures forall g :: g in r <==> g in reg && g.name in names
  {
    if reg == [] then []
    else (if reg[0].name in names then [reg[0]] else []) + Named(reg[1..], names)
  }

  /** The table after deleting the groups with one of the names: the others, in order. */
  function WithoutNamed(reg: Registry, names: set<string>): (r: Registry)
    ensures forall g :: g in r <==> g in reg && g.name !in names
    ensures GroupNames(r) == GroupNames(reg) - names
    ensures |r| <= |reg|
  {
    if reg == [] then []
    else
      var rest := WithoutNamed(reg[1..], names);
      assert reg == [reg[0]] + reg[1..];
      GroupNamesConcat([reg[0]], reg[1..]);
      if reg[0].name in names then rest
      else
        GroupNamesConcat([reg[0]], rest);
        [reg[0]] + rest
  }

  lemma {:induction false} WithoutNamedConcat(a: Registry, b: Registry, names: set<string>)
    ensures WithoutNamed(a + b, names) == WithoutNamed(a, names) + WithoutNamed(b, names)
    decreases |a|
  {
    if a == [] {
      assert a + b == b;
    } else {
      assert (a + b)[0] == a[0] && (a + b)[1..] == a[1..] + b;
      WithoutNamedConcat(a[1..], b, names);
    }
  }

  /** Deleting groups that are not there is no change. */
  lemma {:induction false} WithoutAbsent(reg: Registry, names: set<string>)
    requires GroupNames(reg) !! names
    ensures WithoutNamed(reg, names) == reg
    decreases |reg|
  {
    if reg != [] {
      assert reg[0] in reg;
      assert reg == [reg[0]] + reg[1..];
      GroupNamesConcat([reg[0]], reg[1..]);
      WithoutAbsent(reg[1..], names);
    }
  }

  /** Deleting groups also removes them from every user's groups. */
  function WithoutRoles(users: map<nat, User>, names: set<string>): (r: map<nat, User>)
    ensures r.Keys == users.Keys
    ensures forall id :: id in r ==> r[id] == users[id].(roles := users[id].roles - names)
  {
    map id | id in users :: users[id].(roles := users[id].roles - names)
  }

  /** The state of one run: the group table, the `created_groups` tally and the reports. */
  datatype Run = Run(groups: Registry, processed: seq<(string, nat)>, messages: seq<Message>)

  /** The state before the role loop: with `force`, the configured groups are deleted first. */
  function Start(groups: Registry, names: set<string>, force: bool): Run {
    if !force then Run(groups, [], [])
    else
      var doomed := Named(groups, names);
      Run(WithoutNamed(groups, names), [], if doomed == [] then [] else [Deleting(NamesOf(doomed))])
  }

  function NamesOf(reg: Registry): (names: seq<string>)
    ensures |names| == |reg| && forall i :: 0 <= i < |reg| ==> names[i] == reg[i].name
  {
    if reg == [] then [] else [reg[0].name] + NamesOf(reg[1..])
  }

  /**
   * One iteration of the role loop: an existing role is skipped without `force`; otherwise
   * the role is created (or cleared) and given exactly its resolving tags.
   */
  function Step(r: Run, catalog: Catalog, force: bool, c: RoleConfig): Run {
    var i := GroupIndex(r.groups, c.name);
    if i >= 0 && !force then r.(messages := r.messages + [Skipping(c.name)])
    else
      var f := FillOf(catalog, c.perms);
      var g := Group(c.name, f.granted);
      Run(if i >= 0 then r.groups[i := g] else r.groups + [g], r.processed + [(c.name, f.added)], r.messages + f.messages)
  }

  function Steps(r: Run, catalog: Catalog, force: bool, cs: seq<RoleConfig>): Run
    decreases |cs|
  {
    if cs == [] then r
    else Step(Steps(r, catalog, force, cs[..|cs| - 1]), catalog, force, cs[|cs| - 1])
  }

  lemma StepsSnoc(r: Run, catalog: Catalog, force: bool, cs: seq<RoleConfig>, i: nat)
    requires i < |cs|
    ensures Steps(r, catalog, force, cs[..i + 1]) == Step(Steps(r, catalog, force, cs[..i]), catalog, force, cs[i])
  {
    assert cs[..i + 1][..i] == cs[..i];
  }

  lemma Advance(r: Run, catalog: Catalog, force: bool, cs: seq<RoleConfig>, i: nat, run: Run)
    requires i < |cs| && run == Steps(r, catalog, force, cs[..i])
    ensures Step(run, catalog, force, cs[i]) == Steps(r, catalog, force, cs[..i + 1])
  {
    StepsSnoc(r, catalog, force, cs, i);
  }

  /** The roles of `cs` whose name is not among `names`, in order. */
  function Missing(names: set<string>, cs: seq<RoleConfig>): (m: seq<RoleConfig>)
    ensures forall c :: c in m <==> c in cs && c.name !in names
    ensures |m| <= |cs|
    decreases |cs|
  {
    if cs == [] then []
    else
      var rest := Missing(names, cs[..|cs| - 1]);
      var c := cs[|cs| - 1];
      assert cs == cs[..|cs| - 1] + [c];
      if c.name in names then rest else rest + [c]
  }

  /** The groups a run adds for the roles `cs`, in order, each with its resolving tags. */
  function ConfigGroups(catalog: Catalog, cs: seq<RoleConfig>): (gs: Registry)
    ensures |gs| == |cs|
    ensures forall i :: 0 <= i < |cs| ==> gs[i] == Group(cs[i].name, FillOf(catalog, cs[i].perms).granted)
  {
    seq(|cs|, i requires 0 <= i < |cs| => Group(cs[i].name, FillOf(catalog, cs[i].perms).granted))
  }

  lemma {:induction false} ConfigGroupsNames(catalog: Catalog, cs: seq<RoleConfig>)
    ensures GroupNames(ConfigGroups(catalog, cs)) == ConfigNames(cs)
  {
    var gs := ConfigGroups(catalog, cs);
    forall x | x in GroupNames(gs) ensures x in ConfigNames(cs) {
      var g :| g in gs && g.name == x;
      var i :| 0 <= i < |gs| && gs[i] == g;
      assert cs[i] in cs;
    }
    forall x | x in ConfigNames(cs) ensures x in GroupNames(gs) {
      var c :| c in cs && c.name == x;
      var i :| 0 <= i < |cs| && cs[i] == c;
      assert gs[i] in gs;
    }
  }

  /** The `created_groups` entries for the roles `cs`: each name with its `permissions_added`. */
  function Tally(catalog: Catalog, cs: seq<RoleConfig>): (t: seq<(string, nat)>)
    ensures |t| == |cs|
    ensures forall i :: 0 <= i < |cs| ==> t[i] == (cs[i].name, FillOf(catalog, cs[i].perms).added)
  {
    seq(|cs|, i requires 0 <= i < |cs| => (cs[i].name, FillOf(catalog, cs[i].perms).added))
  }

  /** The last role of a distinct configuration is not named by any earlier one. */
  lemma {:induction false} LastIsNew(cs: seq<RoleConfig>, names: set<string>)
    requires DistinctConfig(cs) && cs != []
    ensures cs[|cs| - 1].name !in ConfigNames(Missing(names, cs[..|cs| - 1]))
  {
    var init := cs[..|cs| - 1];
    forall c | c in Missing(names, init)
      ensures c.name != cs[|cs| - 1].name
    {
      var q :| 0 <= q < |init| && init[q] == c;
      assert cs[q] == c;
    }
  }

  /**
   * The shape of any run: the existing groups stay in place and the roles whose name is
   * not yet taken are appended in configuration order with exactly their resolving tags.
   * With `force` no configured name may still be present (they were deleted first).
   */
  lemma {:induction false} RunShape(r: Run, catalog: Catalog, force: bool, cs: seq<RoleConfig>)
    requires DistinctConfig(cs)
    requires force ==> ConfigNames(cs) !! GroupNames(r.groups)
    ensures Steps(r, catalog, force, cs).groups == r.groups + ConfigGroups(catalog, Missing(GroupNames(r.groups), cs))
    ensures Steps(r, catalog, force, cs).processed == r.processed + Tally(catalog, Missing(GroupNames(r.groups), cs))
    decreases |cs|
  {
    var names := GroupNames(r.groups);
    if cs == [] {
      assert r.groups + ConfigGroups(catalog, []) == r.groups;
      assert r.processed + Tally(catalog, []) == r.processed;
    } else {
      var init := cs[..|cs| - 1];
      var c := cs[|cs| - 1];
      assert DistinctConfig(init);
      assert ConfigNames(init) <= ConfigNames(cs) by {
        forall x | x in ConfigNames(init) ensures x in ConfigNames(cs) {
          var d :| d in init && d.name == x;
          assert d in cs;
        }
      }
      RunShape(r, catalog, force, init);
      var m0 := Missing(names, init);
      var prev := Steps(r, catalog, force, init);
      assert Steps(r, catalog, force, cs) == Step(prev, catalog, force, c);
      if c.name in names {
        assert c in cs;
        GroupNamesConcat(r.groups, ConfigGroups(catalog, m0));
        StepSkips(prev, catalog, force, c);
      } else {
        LastIsNew(cs, names);
        StepAppends(prev, catalog, force, c, r.groups, r.processed, m0);
      }
    }
  }

  /** Without `force`, a role whose name exists leaves the table and the tally as they were. */
  lemma StepSkips(prev: Run, catalog: Catalog, force: bool, c: RoleConfig)
    requires !force && c.name in GroupNames(prev.groups)
    ensures Step(prev, catalog, force, c).groups == prev.groups
    ensures Step(prev, catalog, force, c).processed == prev.processed
  {
  }

  /** A role whose name is new is appended to the table and the tally. */
  lemma {:induction false} StepAppends(prev: Run, catalog: Catalog, force: bool, c: RoleConfig,
                                       base: Registry, tally: seq<(string, nat)>, m0: seq<RoleConfig>)
    requires prev.groups == base + ConfigGroups(catalog, m0) && prev.processed == tally + Tally(catalog, m0)
    requires c.name !in GroupNames(base) && c.name !in ConfigNames(m0)
    ensures Step(prev, catalog, force, c).groups == base + ConfigGroups(catalog, m0 + [c])
    ensures Step(prev, catalog, force, c).processed == tally + Tally(catalog, m0 + [c])
  {
    GroupNamesConcat(base, ConfigGroups(catalog, m0));
    ConfigGroupsNames(catalog, m0);
    assert GroupIndex(prev.groups, c.name) == -1;
    var f := FillOf(catalog, c.perms);
    assert Step(prev, catalog, force, c).groups == prev.groups + [Group(c.name, f.granted)];
    assert Step(prev, catalog, force, c).processed == prev.processed + [(c.name, f.added)];
    ConfigGroupsSnoc(catalog, m0, c);
    TallySnoc(catalog, m0, c);
  }

  lemma ConfigGroupsSnoc(catalog: Catalog, m0: seq<RoleConfig>, c: RoleConfig)
    ensures ConfigGroups(catalog, m0 + [c]) == ConfigGroups(catalog, m0) + [Group(c.name, FillOf(catalog, c.perms).granted)]
  {
  }

  lemma TallySnoc(catalog: Catalog, m0: seq<RoleConfig>, c: RoleConfig)
    ensures Tally(catalog, m0 + [c]) == Tally(catalog, m0) + [(c.name, FillOf(catalog, c.perms).added)]
  {
  }

  /**
   * With `force`, a run leaves the other groups in their order followed by every
   * configured role, each holding exactly its resolving tags, and tallies every role.
   */
  lemma ForceRebuildsAll(groups: Registry, catalog: Catalog, cs: seq<RoleConfig>)
    requires DistinctConfig(cs)
    ensures Steps(Start(groups, ConfigNames(cs), true), catalog, true, cs).groups ==
      WithoutNamed(groups, ConfigNames(cs)) + ConfigGroups(catalog, cs)
    ensures Steps(Start(groups, ConfigNames(cs), true), catalog, true, cs).processed == Tally(catalog, cs)
  {
    var r := Start(groups, ConfigNames(cs), true);
    assert r.groups == WithoutNamed(groups, ConfigNames(cs)) && r.processed == [];
    assert ConfigNames(cs) !! GroupNames(r.groups);
    RunShape(r, catalog, true, cs);
    MissingNone(GroupNames(r.groups), cs);
    assert [] + Tally(catalog, cs) == Tally(catalog, cs);
  }

  lemma {:induction false} MissingNone(names: set<string>, cs: seq<RoleConfig>)
    requires ConfigNames(cs) !! names
    ensures Missing(names, cs) == cs
    decreases |cs|
  {
    if cs != [] {
      var init := cs[..|cs| - 1];
      assert cs[|cs| - 1] in cs;
      assert ConfigNames(init) <= ConfigNames(cs) by {
        forall x | x in ConfigNames(init) ensures x in ConfigNames(cs) {
          var d :| d in init && d.name == x;
          assert d in cs;
        }
      }
      MissingNone(names, init);
      assert init + [cs[|cs| - 1]] == cs;
    }
  }

  lemma {:induction false} MissingAll(names: set<string>, cs: seq<RoleConfig>)
    requires ConfigNames(cs) <= names
    ensures Missing(names, cs) == []
  {
    var m := Missing(names, cs);
    assert forall c :: c in m ==> c.name in ConfigNames(cs);
    NoMemberEmpty(m);
  }

  /**
   * Without `force`, every existing group is left as it was and in place; the configured
   * roles that do not exist yet are appended with exactly their resolving tags.
   */
  lemma SkipKeepsExisting(groups: Registry, catalog: Catalog, cs: seq<RoleConfig>)
    requires DistinctConfig(cs)
    ensures Steps(Start(groups, ConfigNames(cs), false), catalog, false, cs).groups ==
      groups + ConfigGroups(catalog, Missing(GroupNames(groups), cs))
    ensures Steps(Start(groups, ConfigNames(cs), false), catalog, false, cs).processed ==
      Tally(catalog, Missing(GroupNames(groups), cs))
  {
    var r := Start(groups, ConfigNames(cs), false);
    assert r == Run(groups, [], []);
    RunShape(r, catalog, false, cs);
    assert [] + Tally(catalog, Missing(GroupNames(groups), cs)) == Tally(catalog, Missing(GroupNames(groups), cs));
  }

  /** After a run, every configured role exists. */
  lemma {:induction false} AllConfiguredPresent(groups: Registry, catalog: Catalog, force: bool, cs: seq<RoleConfig>)
    requires DistinctConfig(cs)
    ensures ConfigNames(cs) <= GroupNames(Steps(Start(groups, ConfigNames(cs), force), catalog, force, cs).groups)
  {
    var r := Start(groups, ConfigNames(cs), force);
    var names := GroupNames(r.groups);
    RunShape(r, catalog, force, cs);
    var missing := Missing(names, cs);
    GroupNamesConcat(r.groups, ConfigGroups(catalog, missing));
    ConfigGroupsNames(catalog, missing);
    forall x | x in ConfigNames(cs) ensures x in names + ConfigNames(missing) {
      var c :| c in cs && c.name == x;
      if x !in names {
        assert c in missing;
      }
    }
  }

  /** A second run without `force` changes no group: every role is then skipped. */
  lemma Idempotent(groups: Registry, catalog: Catalog, force: bool, cs: seq<RoleConfig>)
    requires DistinctConfig(cs)
    ensures var once := Steps(Start(groups, ConfigNames(cs), force), catalog, force, cs).groups;
      Steps(Start(once, ConfigNames(cs), false), catalog, false, cs).groups == once
  {
    var once := Steps(Start(groups, ConfigNames(cs), force), catalog, force, cs).groups;
    AllConfiguredPresent(groups, catalog, force, cs);
    SkipKeepsExisting(once, catalog, cs);
    MissingAll(GroupNames(once), cs);
    assert once + ConfigGroups(catalog, []) == once;
  }

  /** A second run with `force` rebuilds the same table as the first. */
  lemma ForceIdempotent(groups: Registry, catalog: Catalog, cs: seq<RoleConfig>)
    requires DistinctConfig(cs)
    ensures var once := Steps(Start(groups, ConfigNames(cs), true), catalog, true, cs).groups;
      Steps(Start(once, ConfigNames(cs), true), catalog, true, cs).groups == once
  {
    var names := ConfigNames(cs);
    var kept := WithoutNamed(groups, names);
    var built := ConfigGroups(catalog, cs);
    ForceRebuildsAll(groups, catalog, cs);
    ForceRebuildsAll(kept + built, catalog, cs);
    WithoutNamedConcat(kept, built, names);
    WithoutAbsent(kept, names);
    var rest := WithoutNamed(built, names);
    ConfigGroupsNames(catalog, cs);
    assert GroupNames(rest) == {};
    assert forall g :: g in rest ==> g.name in GroupNames(rest);
    NoMemberEmpty(rest);
    assert kept + [] == kept;
  }

  /**
   * `existing_groups.delete()`: removes the groups with one of the names, and with them
   * those roles of every user.
   */
  method DeleteGroups(db: Db, names: set<string>)
    requires db.Valid()
    modifies db
    ensures db.Valid()
    ensures db.groups == WithoutNamed(old(db.groups), names)
    ensures db.users == WithoutRoles(old(db.users), names)
    ensures db.orgs == old(db.orgs) && db.nextUserId == old(db.nextUserId) && db.nextOrgId == old(db.nextOrgId)
  {
    ghost var before := db.groups;
    db.groups := WithoutNamed(db.groups, names);
    db.users := WithoutRoles(db.users, names);
    assert DistinctNames(db.groups) by {
      WithoutNamedDistinct(before, names);
    }
  }

  lemma {:induction false} WithoutNamedDistinct(reg: Registry, names: set<string>)
    requires DistinctNames(reg)
    ensures DistinctNames(WithoutNamed(reg, names))
    decreases |reg|
  {
    if reg != [] {
      WithoutNamedDistinct(reg[1..], names);
      var rest := WithoutNamed(reg[1..], names);
      forall g | g in rest ensures g.name != reg[0].name {
        var j :| 0 <= j < |reg[1..]| && reg[1..][j] == g;
        assert reg[j + 1] == g;
      }
    }
  }

  /** The role loop: each role of `cs` is skipped, created or rebuilt in turn. */
  method ProcessRoles(db: Db, cs: seq<RoleConfig>, catalog: Catalog, force: bool, start: Run)
    returns (processed: seq<(string, nat)>, messages: seq<Message>)
    requires db.Valid() && start.groups == db.groups && start.processed == []
    modifies db`groups
    ensures db.Valid()
    ensures Run(db.groups, processed, messages) == Steps(start, catalog, force, cs)
  {
    processed, messages := [], start.messages;
    var i := 0;
    ghost var run := start;
    assert cs[..0] == [];
    while i < |cs|
      invariant 0 <= i <= |cs|
      invariant run == Steps(start, catalog, force, cs[..i])
      invariant run == Run(db.groups, processed, messages)
      invariant DistinctNames(db.groups) && GroupNames(start.groups) <= GroupNames(db.groups)
    {
      Advance(start, catalog, force, cs, i, run);
      processed, messages := ProcessRole(db, catalog, force, cs[i], processed, messages);
      run := Step(run, catalog, force, cs[i]);
      i := i + 1;
    }
    assert cs[..|cs|] == cs;
    GrowGroups(db.users, db.orgs, start.groups, db.nextUserId, db.nextOrgId, db.groups);
  }

  /**
   * One pass of the role loop: skips an existing role without `force`, otherwise fills
   * the role's group and writes it, adding its `permissions_added` to the tally.
   */
  method ProcessRole(db: Db, catalog: Catalog, force: bool, c: RoleConfig,
                     processed0: seq<(string, nat)>, messages0: seq<Message>)
    returns (processed: seq<(string, nat)>, messages: seq<Message>)
    requires DistinctNames(db.groups)
    modifies db`groups
    ensures DistinctNames(db.groups) && GroupNames(old(db.groups)) <= GroupNames(db.groups)
    ensures Run(db.groups, processed, messages) == Step(Run(old(db.groups), processed0, messages0), catalog, force, c)
  {
    processed, messages := processed0, messages0;
    var k := GroupIndex(db.groups, c.name);
    if k >= 0 && !force {
      messages := messages + [Skipping(c.name)];
    } else {
      var f := FillGroup(catalog, c.perms);
      SaveGroup(db, k, Group(c.name, f.granted));
      processed := processed + [(c.name, f.added)];
      messages := messages + f.messages;
    }
  }

  /**
   * Writing one group: the row at index `k` when the group existed (its permissions
   * cleared and refilled), a new row at the end otherwise. No group name is lost.
   */
  method SaveGroup(db: Db, k: int, g: Group)
    requires DistinctNames(db.groups)
    requires k >= 0 ==> k < |db.groups| && db.groups[k].name == g.name
    requires k < 0 ==> g.name !in GroupNames(db.groups)
    modifies db`groups
    ensures db.groups == if k >= 0 then old(db.groups)[k := g] else old(db.groups) + [g]
    ensures DistinctNames(db.groups) && GroupNames(old(db.groups)) <= GroupNames(db.groups)
  {
    ghost var before := db.groups;
    if k >= 0 {
      db.groups := db.groups[k := g];
      ReplaceKeepsNames(before, k, g);
    } else {
      db.groups := db.groups + [g];
      GroupNamesConcat(before, [g]);
      assert g in [g];
    }
  }

  lemma {:induction false} ReplaceKeepsNames(reg: Registry, k: nat, g: Group)
    requires k < |reg| && reg[k].name == g.name && DistinctNames(reg)
    ensures GroupNames(reg[k := g]) == GroupNames(reg) && DistinctNames(reg[k := g])
  {
    var r := reg[k := g];
    forall x | x in GroupNames(reg) ensures x in GroupNames(r) {
      var h :| h in reg && h.name == x;
      var j :| 0 <= j < |reg| && reg[j] == h;
      assert r[j].name == x && r[j] in r;
    }
    forall x | x in GroupNames(r) ensures x in GroupNames(reg) {
      var h :| h in r && h.name == x;
      var j :| 0 <= j < |r| && r[j] == h;
      assert reg[j].name == x && reg[j] in reg;
    }
  }

  /**
   * `handle`: with `list_permissions` nothing changes. Otherwise, inside one transaction,
   * `force` deletes the configured groups (and with them those roles of every user); then
   * each configured role is skipped, created or rebuilt in turn.
   */
  method Handle(db: Db, catalog: Catalog, force: bool, listPermissions: bool)
    returns (processed: seq<(string, nat)>, messages: seq<Message>)
    requires db.Valid()
    modifies db
    ensures db.Valid()
    ensures listPermissions ==> processed == [] && messages == [] && db.groups == old(db.groups) && db.users == old(db.users)
    ensures !listPermissions ==>
      (Run(db.groups, processed, messages) ==
       Steps(Start(old(db.groups), ConfigNames(ROLES_CONFIG), force), catalog, force, ROLES_CONFIG))
    ensures !listPermissions && force ==> db.users == WithoutRoles(old(db.users), ConfigNames(ROLES_CONFIG))
    ensures !listPermissions && !force ==> db.users == old(db.users)
    ensures db.orgs == old(db.orgs) && db.nextUserId == old(db.nextUserId) && db.nextOrgId == old(db.nextOrgId)
  {
    if listPermissions {
      return [], [];
    }
    var names := ConfigNames(ROLES_CONFIG);
    var start := Start(db.groups, names, force);
    if force {
      DeleteGroups(db, names);
    }
    processed, messages := ProcessRoles(db, ROLES_CONFIG, catalog, force, start);
  }
}
