/**
  The two Java string operations the core's decisions hinge on: `String.split("=")`
  (limit 0) and Spring's `StringUtils.hasText`.
*/
module JavaStrings {

  /** The label separator, `key=value`. */
  const Separator: char := '='

  /** Index of the first occurrence of `c` in `s`. */
  function IndexOf(s: string, c: char): (i: nat)
    requires c in s
    ensures i < |s| && s[i] == c
    ensures c !in s[..i]
  {
    if s[0] == c then 0
    else
      var j := IndexOf(s[1..], c);
      assert s[..j + 1] == [s[0]] + s[1..][..j];
      j + 1
  }

  /**
    The fields of `s` between its '=' characters, empty ones included: every '='
    ends one field and starts the next, so `s` has one more field than it has '='.
  */
  function Fields(s: string): (parts: seq<string>)
    ensures |parts| >= 1
    ensures forall k :: 0 <= k < |parts| ==> Separator !in parts[k]
    decreases |s|
  {
    if Separator !in s then [s]
    else
      var i := IndexOf(s, Separator);
      [s[..i]] + Fields(s[i + 1..])
  }

  /** The fields glued back together with '=' between them: the inverse of `Fields`. */
  function Join(parts: seq<string>): string
    requires |parts| >= 1
  {
    if |parts| == 1 then parts[0] else parts[0] + [Separator] + Join(parts[1..])
  }

  /** `parts` without its trailing empty strings. */
  function StripTrailingEmpty(parts: seq<string>): (r: seq<string>)
    ensures r <= parts
    ensures r == [] || r[|r| - 1] != ""
    ensures forall k :: |r| <= k < |parts| ==> parts[k] == ""
  {
    if |parts| > 0 && parts[|parts| - 1] == "" then StripTrailingEmpty(parts[..|parts| - 1])
    else parts
  }

  /**
    Java's `s.split("=")` with the default limit 0: a string without '=' is returned
    whole (even the empty string); otherwise its fields are returned with the
    trailing empty fields removed.
  */
  function JavaSplit(s: string): (parts: seq<string>)
    ensures forall k :: 0 <= k < |parts| ==> Separator !in parts[k]
    ensures Separator !in s ==> parts == [s]
    ensures Separator in s ==> parts <= Fields(s)
    ensures Separator in s ==> parts == [] || parts[|parts| - 1] != ""
    ensures Separator in s ==> forall k :: |parts| <= k < |Fields(s)| ==> Fields(s)[k] == ""
  {
    if Separator !in s then [s] else StripTrailingEmpty(Fields(s))
  }

  /** `n` separator characters. */
  function Separators(n: nat): (r: string)
    ensures |r| == n && forall k :: 0 <= k < n ==> r[k] == Separator
  {
    seq(n, _ => Separator)
  }

  /** `n` empty strings. */
  function Empties(n: nat): (r: seq<string>)
    ensures |r| == n && forall k :: 0 <= k < n ==> r[k] == ""
  {
    seq(n, _ => "")
  }

  /**
    The key of a label entry, as `entry.split("=")[0]` reads it: the text before the
    first '=', or the whole entry when it has none.
  */
  function LabelKey(entry: string): (key: string)
    requires |JavaSplit(entry)| >= 1
    ensures Separator !in key
    ensures Separator !in entry ==> key == entry
    ensures Separator in entry ==> key == entry[..IndexOf(entry, Separator)]
  {
    assert Separator in entry ==> JavaSplit(entry)[0] == Fields(entry)[0];
    JavaSplit(entry)[0]
  }

  /** Whether an entry passes the label syntax check: exactly a key and a value. */
  predicate IsKeyValue(entry: string) {
    |JavaSplit(entry)| == 2
  }

  /** Java's `Character.isWhitespace`. */
  predicate IsJavaWhitespace(c: char) {
    || c == ' ' || c == '\t' || c == '\n' || c == '\r'
    || c == '\U{000B}' || c == '\U{000C}'
    || ('\U{001C}' <= c <= '\U{001F}')
    || c == '\U{1680}'
    || ('\U{2000}' <= c <= '\U{2006}')
    || ('\U{2008}' <= c <= '\U{200A}')
    || c == '\U{2028}' || c == '\U{2029}' || c == '\U{205F}' || c == '\U{3000}'
  }

  /** Spring's `StringUtils.hasText`: some character of `s` is not whitespace. */
  predicate HasText(s: string) {
    exists i :: 0 <= i < |s| && !IsJavaWhitespace(s[i])
  }

  /**
    Blank strings have no text, and Java does not count the no-break spaces
    U+00A0, U+2007 and U+202F as whitespace, so each of them alone is text.
  */
  lemma HasTextExamples()
    ensures !HasText("") && !HasText(" \t") && !HasText("\U{3000}\n")
    ensures HasText(" a ")
    ensures HasText("\U{00A0}") && HasText("\U{2007}") && HasText("\U{202F}")
  {
    assert !IsJavaWhitespace(" a "[1]);
    assert !IsJavaWhitespace("\U{00A0}"[0]);
    assert !IsJavaWhitespace("\U{2007}"[0]);
    assert !IsJavaWhitespace("\U{202F}"[0]);
  }

  // ---------------------------------------------------------------------------
  // Fields and Join are inverse to each other

  /** The first '=' of `p + "=" + t` is the one right after `p` when `p` has none. */
  lemma {:induction false} IndexOfAfterPrefix(p: string, t: string)
    requires Separator !in p
    ensures Separator in p + [Separator] + t
    ensures IndexOf(p + [Separator] + t, Separator) == |p|
  {
    var s := p + [Separator] + t;
    assert s[|p|] == Separator;
    if p != [] {
      assert s[0] == p[0];
      assert s[1..] == p[1..] + [Separator] + t;
      IndexOfAfterPrefix(p[1..], t);
    }
  }

  /** Joining the fields of a string gives the string back. */
  lemma {:induction false} JoinFields(s: string)
    ensures Join(Fields(s)) == s
    decreases |s|
  {
    if Separator in s {
      var i := IndexOf(s, Separator);
      var rest := s[i + 1..];
      JoinFields(rest);
      assert Fields(s) == [s[..i]] + Fields(rest);
      assert Fields(s)[1..] == Fields(rest);
      assert s == s[..i] + [Separator] + rest;
    }
  }

  /** Splitting a join of '='-free parts gives the parts back. */
  lemma {:induction false} FieldsJoin(parts: seq<string>)
    requires |parts| >= 1
    requires forall k :: 0 <= k < |parts| ==> Separator !in parts[k]
    ensures Fields(Join(parts)) == parts
  {
    if |parts| > 1 {
      var p := parts[0];
      var t := Join(parts[1..]);
      var s := p + [Separator] + t;
      assert Join(parts) == s;
      IndexOfAfterPrefix(p, t);
      assert s[..|p|] == p;
      assert s[|p| + 1..] == t;
      assert Fields(s) == [p] + Fields(t);
      FieldsJoin(parts[1..]);
      assert parts == [p] + parts[1..];
    } else {
      assert Join(parts) == parts[0];
    }
  }

  /** Appending one more part to a join adds '=' and that part. */
  lemma {:induction false} JoinAppend(parts: seq<string>, q: string)
    requires |parts| >= 1
    ensures Join(parts + [q]) == Join(parts) + [Separator] + q
  {
    if |parts| > 1 {
      assert (parts + [q])[1..] == parts[1..] + [q];
      JoinAppend(parts[1..], q);
    }
  }

  /** Trailing empty parts become trailing '=' characters. */
  lemma {:induction false} JoinEmpties(parts: seq<string>, n: nat)
    requires |parts| >= 1
    ensures Join(parts + Empties(n)) == Join(parts) + Separators(n)
  {
    if n > 0 {
      JoinEmpties(parts, n - 1);
      assert parts + Empties(n) == (parts + Empties(n - 1)) + [""];
      JoinAppend(parts + Empties(n - 1), "");
      assert Join(parts + Empties(n - 1)) + [Separator] + "" == Join(parts) + Separators(n - 1) + [Separator];
      assert Separators(n) == Separators(n - 1) + [Separator];
    } else {
      assert parts + Empties(0) == parts;
      assert Join(parts) + Separators(0) == Join(parts);
    }
  }

  // ---------------------------------------------------------------------------
  // Which strings split into exactly two parts

  /**
    An entry that splits into two parts is a key, one '=', a non-empty value, and
    nothing but '=' after it.
  */
  lemma TwoPartsShape(s: string)
    requires IsKeyValue(s)
    ensures var parts := JavaSplit(s);
      var j := |parts[0]| + 1 + |parts[1]|;
      && parts[1] != ""
      && j <= |s|
      && s == parts[0] + [Separator] + parts[1] + Separators(|s| - j)
  {
    var parts := JavaSplit(s);
    assert Separator in s;
    var f := Fields(s);
    var n := |f| - 2;
    assert f == parts + Empties(n);
    JoinFields(s);
    JoinEmpties(parts, n);
    assert Join(parts) == parts[0] + [Separator] + parts[1];
    assert |s| == |parts[0]| + 1 + |parts[1]| + n;
  }

  /** A key, '=', a non-empty value and any number of trailing '=' split into key and value. */
  lemma KeyValueSplits(key: string, value: string, n: nat)
    requires Separator !in key && Separator !in value && value != ""
    ensures JavaSplit(key + [Separator] + value + Separators(n)) == [key, value]
  {
    var s := key + [Separator] + value + Separators(n);
    var parts := [key, value] + Empties(n);
    JoinEmpties([key, value], n);
    assert Join(parts) == s;
    FieldsJoin(parts);
    assert s[|key|] == Separator;
    StripTwo(parts);
    assert parts[..2] == [key, value];
  }

  /** Stripping a key, a non-empty value and empty parts leaves the key and the value. */
  lemma {:induction false} StripTwo(parts: seq<string>)
    requires |parts| >= 2 && parts[1] != ""
    requires forall k :: 2 <= k < |parts| ==> parts[k] == ""
    ensures StripTrailingEmpty(parts) == parts[..2]
    decreases |parts|
  {
    if |parts| > 2 {
      var shorter := parts[..|parts| - 1];
      StripTwo(shorter);
      assert shorter[..2] == parts[..2];
    }
  }

  /** The entries the label syntax check accepts are exactly `key=value` optionally followed by '='. */
  lemma KeyValueIff(s: string)
    ensures IsKeyValue(s) <==>
      exists i, j :: 0 <= i < j <= |s| && KeyValueAt(s, i, j)
  {
    if IsKeyValue(s) {
      KeyValueWitness(s);
    }
    if exists i, j :: 0 <= i < j <= |s| && KeyValueAt(s, i, j) {
      var i, j :| 0 <= i < j <= |s| && KeyValueAt(s, i, j);
      KeyValueAtSplits(s, i, j);
    }
  }

  /** An accepted entry has its separator and value end where its two parts say. */
  lemma KeyValueWitness(s: string)
    requires IsKeyValue(s)
    ensures var parts := JavaSplit(s);
      var i := |parts[0]|;
      var j := |parts[0]| + 1 + |parts[1]|;
      0 <= i < j <= |s| && KeyValueAt(s, i, j)
  {
    TwoPartsShape(s);
    var parts := JavaSplit(s);
    var i := |parts[0]|;
    var j := |parts[0]| + 1 + |parts[1]|;
    assert s[..i] == parts[0];
    assert s[i + 1..j] == parts[1];
    assert s[i] == Separator;
  }

  /** A string of the accepted shape splits into its key and its value. */
  lemma KeyValueAtSplits(s: string, i: int, j: int)
    requires 0 <= i < j <= |s| && KeyValueAt(s, i, j)
    ensures JavaSplit(s) == [s[..i], s[i + 1..j]]
  {
    assert s == s[..i] + [Separator] + s[i + 1..j] + Separators(|s| - j);
    KeyValueSplits(s[..i], s[i + 1..j], |s| - j);
  }

  /** `s[..i]` is the key, `s[i+1..j]` the non-empty value, and `s[j..]` only '='. */
  predicate KeyValueAt(s: string, i: int, j: int)
    requires 0 <= i < j <= |s|
  {
    && s[i] == Separator
    && Separator !in s[..i]
    && i + 1 < j
    && Separator !in s[i + 1..j]
    && forall k :: j <= k < |s| ==> s[k] == Separator
  }

  /** Entries Java splits into two parts, which the label syntax check accepts. */
  lemma AcceptedSplitExamples()
    ensures JavaSplit("=v") == ["", "v"]
    ensures JavaSplit("a=b=") == ["a", "b"]
  {
    KeyValueSplits("", "v", 0);
    assert "" + [Separator] + "v" + Separators(0) == "=v";
    KeyValueSplits("a", "b", 1);
    assert "a" + [Separator] + "b" + Separators(1) == "a=b=";
  }

  /** A trailing '=' leaves a key alone: `"key="` is one part. */
  lemma TrailingSeparatorExample()
    ensures JavaSplit("key=") == ["key"]
  {
    FieldsJoin(["key", ""]);
    assert Join(["key", ""]) == "key=";
    assert "key="[3] == Separator;
  }

  /** A second '=' inside the value makes three parts. */
  lemma ThreePartsExample()
    ensures JavaSplit("a=b=c") == ["a", "b", "c"]
  {
    FieldsJoin(["a", "b", "c"]);
    assert Join(["a", "b", "c"]) == "a=b=c";
    assert "a=b=c"[1] == Separator;
  }

  /** A lone '=' splits into no parts at all. */
  lemma LoneSeparatorExample()
    ensures JavaSplit("=") == []
  {
    FieldsJoin(["", ""]);
    assert Join(["", ""]) == "=";
    assert "="[0] == Separator;
  }
}
