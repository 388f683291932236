/**
 * The licence-plate input: what it keeps of typed text (upper-case Latin letters and
 * digits, at most eight of them) and how it splits a plate into the three groups it
 * draws, as in "AA-123-BB".
 */
module LicensePlateInput {
  import opened Common

  /**
   * `toUpperCase` on one character, as far as the result can hold a plate character.
   * Besides a–z, the Unicode case tables map a few lower-case letters and ligatures to
   * text containing A–Z: dotless i and long s to one letter, sharp s and the Latin
   * ligatures to two or three, and six letters to a capital followed by a mark.
   * Every other character is kept as it is: its capital, if it has one, is neither a
   * letter A–Z nor a digit.
   */
  function UpperChar(c: char): (u: string)
    ensures 1 <= |u| <= 3
    ensures 'a' <= c <= 'z' ==> u == [(c as int - 32) as char] && 'A' <= u[0] <= 'Z'
    ensures 'A' <= c <= 'Z' || '0' <= c <= '9' ==> u == [c]
  {
    if 'a' <= c <= 'z' then [(c as int - 32) as char]
    else if c == '\U{0131}' then "I"          // dotless i
    else if c == '\U{017F}' then "S"          // long s
    else if c == '\U{00DF}' then "SS"         // sharp s
    else if c == '\U{0149}' then "\U{02BC}N"  // n preceded by apostrophe
    else if c == '\U{01F0}' then "J\U{030C}"  // j with caron
    else if c == '\U{1E96}' then "H\U{0331}"  // h with line below
    else if c == '\U{1E97}' then "T\U{0308}"  // t with diaeresis
    else if c == '\U{1E98}' then "W\U{030A}"  // w with ring above
    else if c == '\U{1E99}' then "Y\U{030A}"  // y with ring above
    else if c == '\U{1E9A}' then "A\U{02BE}"  // a with right half ring
    else if c == '\U{FB00}' then "FF"
    else if c == '\U{FB01}' then "FI"
    else if c == '\U{FB02}' then "FL"
    else if c == '\U{FB03}' then "FFI"
    else if c == '\U{FB04}' then "FFL"
    else if c == '\U{FB05}' || c == '\U{FB06}' then "ST"
    else [c]
  }

  /** `toUpperCase` on a string: each character's capitals, in order. */
  function Upper(s: string): (r: string)
    ensures |s| <= |r| <= 3 * |s|
  {
    if s == [] then [] else UpperChar(s[0]) + Upper(s[1..])
  }

  /** The characters `/[^A-Z0-9]/g` does not remove. */
  predicate PlateChar(c: char) {
    'A' <= c <= 'Z' || '0' <= c <= '9'
  }

  /** `toUpperCase().replace(/[^A-Z0-9]/g, "")`: the plate characters of the upper-cased text. */
  function Cleaned(s: string): (r: string)
    ensures |r| <= 3 * |s|
    ensures forall i :: 0 <= i < |r| ==> PlateChar(r[i])
  {
    FilterMembers(Upper(s), PlateChar);
    Filter(Upper(s), PlateChar)
  }

  const MAX_LENGTH := 8

  /** `formatValue`: the cleaned text cut to its first eight characters. */
  function FormatValue(input: string): (r: string)
    ensures |r| <= MAX_LENGTH
    ensures forall i :: 0 <= i < |r| ==> PlateChar(r[i])
    ensures IsPrefix(r, Cleaned(input))
  {
    SlicePrefix(Cleaned(input), MAX_LENGTH);
    Slice(Cleaned(input), 0, MAX_LENGTH)
  }

  /** Upper-casing works character by character. */
  lemma {:induction false} UpperConcat(a: string, b: string)
    ensures Upper(a + b) == Upper(a) + Upper(b)
  {
    if a == [] {
      assert a + b == b;
    } else {
      assert (a + b)[0] == a[0] && (a + b)[1..] == a[1..] + b;
      UpperConcat(a[1..], b);
    }
  }

  /** Cleaning works character by character: kept characters keep their relative order. */
  lemma CleanedConcat(a: string, b: string)
    ensures Cleaned(a + b) == Cleaned(a) + Cleaned(b)
  {
    UpperConcat(a, b);
    FilterConcat(Upper(a), Upper(b), PlateChar);
  }

  /**
   * One character leaves the plate characters of its capitals: a–z its capital, A–Z and
   * digits themselves, sharp s two S's and the "ffi" ligature three letters.
   */
  lemma CleanedOne(c: char)
    ensures Cleaned([c]) == Filter(UpperChar(c), PlateChar)
    ensures 'a' <= c <= 'z' ==> Cleaned([c]) == UpperChar(c) && 'A' <= Cleaned([c])[0] <= 'Z'
    ensures PlateChar(c) ==> Cleaned([c]) == [c]
    ensures c == '\U{00DF}' ==> Cleaned([c]) == "SS"
    ensures c == '\U{FB03}' ==> Cleaned([c]) == "FFI"
  {
    assert [c][1..] == [];
    assert Upper([c]) == UpperChar(c) + Upper([]);
    assert UpperChar(c) + [] == UpperChar(c);
    if c == '\U{FB03}' {
      FilterAll(UpperChar(c), PlateChar);
    }
  }

  /** Text made only of plate characters is already clean. */
  lemma {:induction false} CleanedFixed(s: string)
    requires forall i :: 0 <= i < |s| ==> PlateChar(s[i])
    ensures Cleaned(s) == s
  {
    if s != [] {
      CleanedFixed(s[1..]);
      assert s == [s[0]] + s[1..];
      CleanedConcat([s[0]], s[1..]);
      CleanedOne(s[0]);
    }
  }

  /** Formatting a formatted value returns it unchanged. */
  lemma FormatIdempotent(input: string)
    ensures FormatValue(FormatValue(input)) == FormatValue(input)
  {
    var f := FormatValue(input);
    CleanedFixed(f);
    SlicePrefix(f, MAX_LENGTH);
  }

  /** The three groups the plate is drawn in. */
  datatype Parts = Parts(letters1: string, numbers: string, letters2: string)

  /** `getParts`: characters 0–1, 2–5 and 6–7. */
  function GetParts(val: string): (p: Parts)
    ensures |p.letters1| <= 2 && |p.numbers| <= 4 && |p.letters2| <= 2
  {
    Parts(Slice(val, 0, 2), Slice(val, 2, 6), Slice(val, 6, 8))
  }

  /** A value of at most eight characters is exactly the concatenation of its groups. */
  lemma PartsJoin(val: string)
    requires |val| <= MAX_LENGTH
    ensures var p := GetParts(val); p.letters1 + p.numbers + p.letters2 == val
  {
    var p := GetParts(val);
    var n := |val|;
    var a := if n < 2 then n else 2;
    var b := if n < 6 then n else 6;
    assert p.letters1 == val[..a];
    assert p.numbers == val[a..b];
    assert p.letters2 == val[b..];
    assert val == val[..a] + val[a..b] + val[b..];
  }

  /** What the input shows for any stored value splits back into that displayed value. */
  lemma DisplayedPartsJoin(value: string)
    ensures var d := FormatValue(value); var p := GetParts(d); p.letters1 + p.numbers + p.letters2 == d
  {
    PartsJoin(FormatValue(value));
  }
}
