/**
 * The string operations the screens rely on: ASCII case mapping for the
 * case-insensitive searches, `includes`, `split`/`join`, and the two form
 * helpers `formatDateForInput` and `prettyLabel`.
 */
module Text {
  import opened Base

  function LowerChar(c: char): char {
    if 'A' <= c <= 'Z' then (c as int + 32) as char else c
  }

  function UpperChar(c: char): char {
    if 'a' <= c <= 'z' then (c as int - 32) as char else c
  }

  /** `s.toLowerCase()`, restricted to ASCII letters. */
  function Lower(s: string): (r: string)
    ensures |r| == |s|
    ensures forall i :: 0 <= i < |s| ==> r[i] == LowerChar(s[i])
  {
    if s == [] then [] else [LowerChar(s[0])] + Lower(s[1..])
  }

  lemma LowerIdempotent(s: string)
    ensures Lower(Lower(s)) == Lower(s)
  {
  }

  lemma LowerConcat(a: string, b: string)
    ensures Lower(a + b) == Lower(a) + Lower(b)
  {
  }

  /** `needle` occurs in `hay` starting at position `i`. */
  predicate OccursAt(hay: string, needle: string, i: int) {
    0 <= i && i + |needle| <= |hay| && hay[i..i + |needle|] == needle
  }

  /** `hay.includes(needle)`. */
  predicate Contains(hay: string, needle: string) {
    exists i | 0 <= i <= |hay| :: OccursAt(hay, needle, i)
  }

  /** Every string includes the empty string. */
  lemma ContainsEmpty(hay: string)
    ensures Contains(hay, "")
  {
    assert OccursAt(hay, "", 0);
  }

  /** A string that includes `needle` still does after text is appended to it or prepended to it. */
  lemma ContainsExtended(a: string, b: string, needle: string)
    ensures Contains(a, needle) ==> Contains(a + b, needle)
    ensures Contains(b, needle) ==> Contains(a + b, needle)
  {
    if Contains(a, needle) {
      var i :| 0 <= i <= |a| && OccursAt(a, needle, i);
      assert (a + b)[i..i + |needle|] == a[i..i + |needle|];
      assert OccursAt(a + b, needle, i);
    }
    if Contains(b, needle) {
      var i :| 0 <= i <= |b| && OccursAt(b, needle, i);
      assert (a + b)[|a| + i..|a| + i + |needle|] == b[i..i + |needle|];
      assert OccursAt(a + b, needle, |a| + i);
    }
  }

  /** `s.split(sep)` for a one-character separator. */
  function Split(s: string, sep: char): (parts: seq<string>)
    ensures |parts| >= 1
    ensures forall k :: 0 <= k < |parts| ==> sep !in parts[k]
    decreases |s|
  {
    if s == [] then [[]]
    else
      var rest := Split(s[1..], sep);
      if s[0] == sep then [[]] + rest
      else [[s[0]] + rest[0]] + rest[1..]
  }

  /** `parts.join(sep)`. */
  function Join(parts: seq<string>, sep: char): string
    requires |parts| >= 1
    decreases |parts|
  {
    if |parts| == 1 then parts[0] else parts[0] + [sep] + Join(parts[1..], sep)
  }

  /** Splitting and joining on the same separator gives back the string. */
  lemma {:induction false} JoinSplit(s: string, sep: char)
    ensures Join(Split(s, sep), sep) == s
    decreases |s|
  {
    if s != [] {
      var rest := Split(s[1..], sep);
      JoinSplit(s[1..], sep);
      if s[0] == sep {
        assert ([[]] + rest)[1..] == rest;
      } else {
        var parts := [[s[0]] + rest[0]] + rest[1..];
        if |rest| > 1 {
          assert parts[1..] == rest[1..];
          assert Join(rest, sep) == rest[0] + [sep] + Join(rest[1..], sep);
        }
      }
    }
  }

  /** The first piece of a split is the longest prefix free of the separator. */
  lemma {:induction false} SplitHead(s: string, sep: char)
    ensures Split(s, sep)[0] <= s
    ensures sep !in Split(s, sep)[0]
    ensures |Split(s, sep)[0]| < |s| ==> s[|Split(s, sep)[0]|] == sep
    decreases |s|
  {
    if s != [] {
      SplitHead(s[1..], sep);
    }
  }

  /** A string without the separator splits into the string alone. */
  lemma {:induction false} SplitWithoutSeparator(s: string, sep: char)
    requires sep !in s
    ensures Split(s, sep) == [s]
    decreases |s|
  {
    if s != [] {
      assert sep !in s[1..];
      SplitWithoutSeparator(s[1..], sep);
      assert [s[0]] + s[1..] == s;
    }
  }

  /**
   * `formatDateForInput(d)`: "" for a falsy date, otherwise `d.split('T')[0]`,
   * the date part of an ISO timestamp.
   */
  function FormatDateForInput(d: Option<string>): (r: string)
    ensures !Truthy(d) ==> r == ""
    ensures Truthy(d) ==> r <= d.value && 'T' !in r
    ensures Truthy(d) && |r| < |d.value| ==> d.value[|r|] == 'T'
  {
    if !Truthy(d) then ""
    else
      SplitHead(d.value, 'T');
      Split(d.value, 'T')[0]
  }

  /** Formatting an already formatted date changes nothing, and a date without 'T' is kept whole. */
  lemma FormatDateIdempotent(d: Option<string>)
    ensures FormatDateForInput(Some(FormatDateForInput(d))) == FormatDateForInput(d)
    ensures Truthy(d) && 'T' !in d.value ==> FormatDateForInput(d) == d.value
  {
    var r := FormatDateForInput(d);
    if r != "" {
      SplitWithoutSeparator(r, 'T');
    }
    if Truthy(d) && 'T' !in d.value {
      SplitWithoutSeparator(d.value, 'T');
    }
  }

  /** `w.charAt(0).toUpperCase() + w.slice(1)`. */
  function Capitalize(w: string): string {
    if w == [] then [] else [UpperChar(w[0])] + w[1..]
  }

  function CapitalizeAll(ws: seq<string>): (r: seq<string>)
    ensures |r| == |ws|
    ensures forall k :: 0 <= k < |ws| ==> r[k] == Capitalize(ws[k])
    decreases |ws|
  {
    if ws == [] then [] else [Capitalize(ws[0])] + CapitalizeAll(ws[1..])
  }

  /** `prettyLabel(s)`: split on '_', capitalise each piece, join with spaces. */
  function PrettyLabel(s: string): string {
    Join(CapitalizeAll(Split(s, '_')), ' ')
  }

  /**
   * The same label written character by character: '_' becomes a space and the
   * first character of every segment is upper-cased; `atStart` says whether the
   * first character of `s` begins a segment.
   */
  function Relabel(s: string, atStart: bool): (r: string)
    ensures |r| == |s|
    ensures forall i :: 0 <= i < |s| && s[i] == '_' ==> r[i] == ' '
    ensures forall i :: 0 <= i < |s| && s[i] != '_' ==>
      r[i] == if (i == 0 && atStart) || (i > 0 && s[i - 1] == '_') then UpperChar(s[i]) else s[i]
    decreases |s|
  {
    if s == [] then []
    else if s[0] == '_' then [' '] + Relabel(s[1..], true)
    else [if atStart then UpperChar(s[0]) else s[0]] + Relabel(s[1..], false)
  }

  lemma JoinConsHead(c: char, w: string, rest: seq<string>, sep: char)
    ensures Join([[c] + w] + rest, sep) == [c] + Join([w] + rest, sep)
  {
    if rest != [] {
      assert ([[c] + w] + rest)[1..] == rest;
      assert ([w] + rest)[1..] == rest;
    }
  }

  lemma {:induction false} RelabelJoins(s: string, atStart: bool)
    ensures var parts := Split(s, '_');
      Relabel(s, atStart)
        == Join([if atStart then Capitalize(parts[0]) else parts[0]] + CapitalizeAll(parts[1..]), ' ')
    decreases |s|
  {
    if s != [] {
      var rest := Split(s[1..], '_');
      if s[0] == '_' {
        RelabelJoins(s[1..], true);
        var parts := [[]] + rest;
        assert parts[1..] == rest;
        assert CapitalizeAll(rest) == [Capitalize(rest[0])] + CapitalizeAll(rest[1..]);
        assert ([[]] + CapitalizeAll(rest))[1..] == CapitalizeAll(rest);
      } else {
        RelabelJoins(s[1..], false);
        var parts := [[s[0]] + rest[0]] + rest[1..];
        assert parts[1..] == rest[1..];
        var c := if atStart then UpperChar(s[0]) else s[0];
        assert ([s[0]] + rest[0])[1..] == rest[0];
        assert (if atStart then Capitalize(parts[0]) else parts[0]) == [c] + rest[0];
        JoinConsHead(c, rest[0], CapitalizeAll(rest[1..]), ' ');
      }
    }
  }

  /**
   * `prettyLabel` replaces each '_' by a space and upper-cases the first
   * character of each segment, leaving every other character as it was.
   */
  lemma PrettyLabelIsRelabel(s: string)
    ensures PrettyLabel(s) == Relabel(s, true)
  {
    RelabelJoins(s, true);
    var parts := Split(s, '_');
    assert CapitalizeAll(parts) == [Capitalize(parts[0])] + CapitalizeAll(parts[1..]);
  }
}
