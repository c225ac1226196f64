/** The few Python string operations the models need, on `seq<char>`.

    `str.lower()` is modelled on ASCII letters only; `str.strip()` removes the
    characters Python classes as whitespace.
 */
module Text {

  /** Python `str.isspace()` for one character. */
  predicate IsSpace(c: char)
  {
    || c == ' ' || ('\t' <= c <= '\r') || ('\U{1C}' <= c <= '\U{1F}')
    || c == '\U{85}' || c == '\U{A0}' || c == '\U{1680}'
    || ('\U{2000}' <= c <= '\U{200A}') || c == '\U{2028}' || c == '\U{2029}'
    || c == '\U{202F}' || c == '\U{205F}' || c == '\U{3000}'
  }

  /** Lower-case one ASCII letter; every other character is unchanged. */
  function LowerChar(c: char): (r: char)
    ensures 'A' <= c <= 'Z' ==> 'a' <= r <= 'z'
    ensures !('A' <= c <= 'Z') ==> r == c
  {
    if 'A' <= c <= 'Z' then (c as int + 32) as char else c
  }

  /** `s.lower()`. */
  function Lower(s: string): (r: string)
  {
    seq(|s|, i requires 0 <= i < |s| => LowerChar(s[i]))
  }

  /** `s.replace(a, b)` for single characters `a` and `b`. */
  function ReplaceChar(s: string, a: char, b: char): (r: string)
  {
    seq(|s|, i requires 0 <= i < |s| => if s[i] == a then b else s[i])
  }

  /** `s.lstrip()`. */
  function StripLeft(s: string): (r: string)
    ensures |r| <= |s| && r == s[|s| - |r|..]
    ensures r == [] || !IsSpace(r[0])
    ensures forall i :: 0 <= i < |s| - |r| ==> IsSpace(s[i])
  {
    if s != [] && IsSpace(s[0]) then StripLeft(s[1..]) else s
  }

  /** `s.rstrip()`. */
  function StripRight(s: string): (r: string)
    ensures |r| <= |s| && r == s[..|r|]
    ensures r == [] || !IsSpace(r[|r| - 1])
    ensures forall i :: |r| <= i < |s| ==> IsSpace(s[i])
  {
    if s != [] && IsSpace(s[|s| - 1]) then StripRight(s[..|s| - 1]) else s
  }

  /** `s.strip()`. */
  function Strip(s: string): string
  {
    StripRight(StripLeft(s))
  }

  /** `sep.join(parts)`. */
  function Join(sep: string, parts: seq<string>): string
  {
    if |parts| == 0 then ""
    else if |parts| == 1 then parts[0]
    else parts[0] + sep + Join(sep, parts[1..])
  }

  /** Lower-casing twice is lower-casing once. */
  lemma LowerIdempotent(s: string)
    ensures Lower(Lower(s)) == Lower(s)
  {
  }

  /** Lower-casing never creates or removes whitespace. */
  lemma LowerKeepsSpace(c: char)
    ensures IsSpace(LowerChar(c)) == IsSpace(c)
  {
  }

  lemma {:induction false} LowerStripLeft(s: string)
    ensures Lower(StripLeft(s)) == StripLeft(Lower(s))
  {
    if s != [] {
      LowerKeepsSpace(s[0]);
      assert Lower(s)[1..] == Lower(s[1..]);
      if IsSpace(s[0]) {
        LowerStripLeft(s[1..]);
      }
    }
  }

  lemma {:induction false} LowerStripRight(s: string)
    ensures Lower(StripRight(s)) == StripRight(Lower(s))
  {
    if s != [] {
      LowerKeepsSpace(s[|s| - 1]);
      assert Lower(s)[..|s| - 1] == Lower(s[..|s| - 1]);
      if IsSpace(s[|s| - 1]) {
        LowerStripRight(s[..|s| - 1]);
      }
    }
  }

  /** Stripping and lower-casing commute. */
  lemma LowerStrip(s: string)
    ensures Lower(Strip(s)) == Strip(Lower(s))
  {
    LowerStripLeft(s);
    LowerStripRight(StripLeft(s));
  }

  /** Replacing a non-letter by a non-capital commutes with lower-casing. */
  lemma LowerReplace(s: string, a: char, b: char)
    requires !('A' <= a <= 'Z') && !('a' <= a <= 'z') && !('A' <= b <= 'Z')
    ensures Lower(ReplaceChar(s, a, b)) == ReplaceChar(Lower(s), a, b)
  {
  }

  /** Replacing a character that does not occur changes nothing. */
  lemma ReplaceAbsent(s: string, a: char, b: char)
    requires forall j :: 0 <= j < |s| ==> s[j] != a
    ensures ReplaceChar(s, a, b) == s
  {
  }

  /** A string whose two ends are not whitespace is unchanged by `strip()`. */
  lemma StripTrimmed(s: string)
    requires s == [] || (!IsSpace(s[0]) && !IsSpace(s[|s| - 1]))
    ensures Strip(s) == s
  {
  }

  /** Every part occurs in the joined string. */
  lemma {:induction false} JoinContains(sep: string, parts: seq<string>, i: nat)
    requires i < |parts|
    ensures exists p, q :: Join(sep, parts) == p + parts[i] + q
  {
    if |parts| == 1 {
      assert Join(sep, parts) == [] + parts[0] + [];
    } else if i == 0 {
      assert Join(sep, parts) == [] + parts[0] + (sep + Join(sep, parts[1..]));
    } else {
      JoinContains(sep, parts[1..], i - 1);
      var p, q :| Join(sep, parts[1..]) == p + parts[1..][i - 1] + q;
      assert Join(sep, parts) == (parts[0] + sep + p) + parts[i] + q;
    }
  }

  /** Every part occurs in a message that ends with the joined parts. */
  lemma JoinedTailContains(head: string, sep: string, parts: seq<string>, i: nat)
    requires i < |parts|
    ensures exists p, q :: head + Join(sep, parts) == p + parts[i] + q
  {
    JoinContains(sep, parts, i);
    var p, q :| Join(sep, parts) == p + parts[i] + q;
    assert head + Join(sep, parts) == (head + p) + parts[i] + q;
  }

  /** Python's `repr` of a list of quote-free strings: `['a', 'b']`. */
  function ListRepr(keys: seq<string>): string
  {
    "[" + Join(", ", Quoted(keys)) + "]"
  }

  function Quoted(keys: seq<string>): (r: seq<string>)
    ensures |r| == |keys|
    ensures forall i :: 0 <= i < |r| ==> r[i] == "'" + keys[i] + "'"
  {
    seq(|keys|, i requires 0 <= i < |keys| => "'" + keys[i] + "'")
  }

  /** A head followed by the repr of a key list contains every key, quoted. */
  lemma ReprContains(head: string, keys: seq<string>, i: nat)
    requires i < |keys|
    ensures exists p, q :: head + ListRepr(keys) == p + "'" + keys[i] + "'" + q
  {
    var quoted := Quoted(keys);
    JoinedTailContains(head + "[", ", ", quoted, i);
    var p, q :| head + "[" + Join(", ", quoted) == p + quoted[i] + q;
    calc {
      head + ListRepr(keys);
      == (head + "[" + Join(", ", quoted)) + "]";
      == p + quoted[i] + q + "]";
      == { assert quoted[i] == "'" + keys[i] + "'"; }
      p + "'" + keys[i] + "'" + (q + "]");
    }
  }
}
