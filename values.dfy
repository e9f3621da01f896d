// Shared vocabulary of the model: optional values, results, the JSON-like
// values the Python code keeps in its dicts, Python truthiness, and the few
// string operations (join, split, strip, substring, decimal rendering) that
// the prompt and report builders use.

module Values {

  datatype Option<T> = None | Some(value: T)

  /** A Python exception (or an error dict) is an `Err` carrying its text. */
  datatype Result<T> = Ok(value: T) | Err(error: string)

  /** A JSON-like value, as held in the dicts the agents pass around. */
  datatype Value =
    | Null
    | Bool(b: bool)
    | Num(n: int)
    | Str(s: string)
    | List(items: seq<Value>)
    | Obj(fields: map<string, Value>)

  /** Python truthiness of a value (`if v:`). */
  predicate Truthy(v: Value)
  {
    match v
    case Null => false
    case Bool(b) => b
    case Num(n) => n != 0
    case Str(s) => s != ""
    case List(items) => items != []
    case Obj(fields) => fields != map[]
  }

  /** Python `v == b` for a boolean `b`: `True == 1` and `False == 0` hold too. */
  predicate EqualsBool(v: Value, b: bool)
  {
    v == Bool(b) || v == Num(if b then 1 else 0)
  }

  /** `d.get(key)` on a dict: a missing key reads as None. */
  function Get(d: map<string, Value>, key: string): (r: Option<Value>)
    ensures r.Some? <==> key in d
    ensures r.Some? ==> r.value == d[key]
  {
    if key in d then Some(d[key]) else None
  }

  // ---------------------------------------------------------------------
  // Strings

  /** `"".join(parts)` */
  function Concat(parts: seq<string>): string
  {
    if parts == [] then "" else parts[0] + Concat(parts[1..])
  }

  /** `sep.join(parts)` */
  function Join(sep: string, parts: seq<string>): string
  {
    if |parts| == 0 then ""
    else if |parts| == 1 then parts[0]
    else parts[0] + sep + Join(sep, parts[1..])
  }

  lemma {:induction false} ConcatAppend(parts: seq<string>, x: string)
    ensures Concat(parts + [x]) == Concat(parts) + x
  {
    if parts == [] {
      assert parts + [x] == [x];
    } else {
      assert (parts + [x])[1..] == parts[1..] + [x];
      ConcatAppend(parts[1..], x);
    }
  }

  lemma ConcatOne(a: string)
    ensures Concat([a]) == a
  {
    assert [a][1..] == [];
  }

  lemma ConcatTwo(a: string, b: string)
    ensures Concat([a, b]) == a + b
  {
    assert [a, b][1..] == [b];
    ConcatOne(b);
  }

  lemma ConcatFour(a: string, b: string, c: string, d: string)
    ensures Concat([a, b, c, d]) == a + (b + (c + d))
  {
    assert [a, b, c, d][1..] == [b, c, d];
    assert [b, c, d][1..] == [c, d];
    ConcatTwo(c, d);
  }

  lemma {:induction false} ConcatSplit(a: seq<string>, b: seq<string>)
    ensures Concat(a + b) == Concat(a) + Concat(b)
  {
    if a == [] {
      assert a + b == b;
    } else {
      assert (a + b)[1..] == a[1..] + b;
      ConcatSplit(a[1..], b);
    }
  }

  /** Appending parts to parts whose text is `start + mid` adds their text after `mid`. */
  lemma AppendParts(parts: seq<string>, more: seq<string>, start: string, mid: string)
    requires Concat(parts) == start + mid
    ensures Concat(parts + more) == start + (mid + Concat(more))
  {
    ConcatSplit(parts, more);
  }

  lemma {:induction false} JoinAppend(sep: string, parts: seq<string>, x: string)
    ensures Join(sep, parts + [x]) == if parts == [] then x else Join(sep, parts) + sep + x
  {
    if |parts| == 0 {
      assert parts + [x] == [x];
    } else if |parts| == 1 {
      assert parts + [x] == [parts[0], x];
    } else {
      assert (parts + [x])[1..] == parts[1..] + [x];
      JoinAppend(sep, parts[1..], x);
    }
  }

  /** `sep.join([""] + items)` is the concatenation of `sep + item` over the items. */
  lemma {:induction false} JoinWithLeadingEmpty(sep: string, items: seq<string>)
    ensures Join(sep, [""] + items) == Concat(seq(|items|, i requires 0 <= i < |items| => sep + items[i]))
  {
    if items == [] {
      assert [""] + items == [""];
    } else {
      var n := |items|;
      var init, last := items[..n - 1], items[n - 1];
      JoinWithLeadingEmpty(sep, init);
      LeadingEmptySnoc(sep, items);
      var front := seq(n - 1, i requires 0 <= i < n - 1 => sep + init[i]);
      ConcatAppend(front, sep + last);
      PrefixedSnoc(sep, items);
    }
  }

  lemma LeadingEmptySnoc(sep: string, items: seq<string>)
    requires items != []
    ensures Join(sep, [""] + items) == Join(sep, [""] + items[..|items| - 1]) + (sep + items[|items| - 1])
  {
    var init, last := items[..|items| - 1], items[|items| - 1];
    assert [""] + items == ([""] + init) + [last];
    JoinAppend(sep, [""] + init, last);
  }

  lemma PrefixedSnoc(sep: string, items: seq<string>)
    requires items != []
    ensures var n := |items|; var init := items[..n - 1];
      seq(n, i requires 0 <= i < n => sep + items[i])
        == seq(n - 1, i requires 0 <= i < n - 1 => sep + init[i]) + [sep + items[n - 1]]
  {
  }

  /** `sep.join(parts)` is the first part followed by `sep + part` for each later part. */
  /** Every part stands whole in the joined string, between what comes before and after it. */
  lemma {:induction false} JoinHasPart(sep: string, parts: seq<string>, i: nat) returns (before: string, after: string)
    requires i < |parts|
    ensures Join(sep, parts) == before + parts[i] + after
  {
    if |parts| == 1 {
      before, after := "", "";
    } else if i == 0 {
      before, after := "", sep + Join(sep, parts[1..]);
    } else {
      var b, a := JoinHasPart(sep, parts[1..], i - 1);
      before, after := parts[0] + sep + b, a;
    }
  }

  lemma {:induction false} JoinAsConcat(sep: string, parts: seq<string>)
    requires parts != []
    ensures Join(sep, parts) == parts[0] + Concat(seq(|parts| - 1, i requires 0 <= i < |parts| - 1 => sep + parts[i + 1]))
  {
    var rest := parts[1..];
    JoinWithLeadingEmpty(sep, rest);
    assert seq(|parts| - 1, i requires 0 <= i < |parts| - 1 => sep + parts[i + 1])
        == seq(|rest|, i requires 0 <= i < |rest| => sep + rest[i]);
    if rest != [] {
      assert ([""] + rest)[1..] == rest;
      assert Join(sep, [""] + rest) == sep + Join(sep, rest);
    }
  }

  predicate IsPrefix(p: string, s: string)
  {
    |p| <= |s| && s[..|p|] == p
  }

  /** A string starts with whatever was written first. */
  lemma PrefixOfAppend(p: string, a: string, b: string)
    ensures IsPrefix(p, p + a + b)
  {
    assert (p + a + b)[..|p|] == p;
  }

  predicate IsSuffix(p: string, s: string)
  {
    |p| <= |s| && s[|s| - |p|..] == p
  }

  /** Python `sub in s` for strings. */
  predicate Contains(s: string, sub: string)
    decreases |s|
  {
    IsPrefix(sub, s) || (|s| > 0 && Contains(s[1..], sub))
  }

  lemma {:induction false} EmptyContained(s: string)
    ensures Contains(s, "")
  {
  }

  lemma {:induction false} ContainsWitness(s: string, sub: string, i: nat)
    requires i + |sub| <= |s| && s[i..i + |sub|] == sub
    ensures Contains(s, sub)
    decreases i
  {
    if i > 0 {
      assert s[1..][i - 1..i - 1 + |sub|] == s[i..i + |sub|];
      ContainsWitness(s[1..], sub, i - 1);
    }
  }

  /** Python `s.split(c)` for a one-character separator. */
  function Split(s: string, c: char): (r: seq<string>)
    ensures |r| >= 1
    decreases |s|
  {
    if s == [] then [""]
    else
      var rest := Split(s[1..], c);
      if s[0] == c then [""] + rest else [[s[0]] + rest[0]] + rest[1..]
  }

  /** No piece of a split contains the separator. */
  lemma {:induction false} SplitPiecesFree(s: string, c: char)
    ensures forall i :: 0 <= i < |Split(s, c)| ==> c !in Split(s, c)[i]
    decreases |s|
  {
    if s != [] {
      SplitPiecesFree(s[1..], c);
    }
  }

  /** Rejoining the pieces of a split gives back the text. */
  lemma {:induction false} JoinSplit(s: string, c: char)
    ensures Join([c], Split(s, c)) == s
    decreases |s|
  {
    if s != [] {
      var rest := Split(s[1..], c);
      JoinSplit(s[1..], c);
      if s[0] == c {
        assert Split(s, c) == [""] + rest;
        assert Join([c], [""] + rest) == "" + [c] + Join([c], rest);
        assert s == [s[0]] + s[1..];
      } else {
        var r := [[s[0]] + rest[0]] + rest[1..];
        assert Split(s, c) == r;
        if |rest| == 1 {
          assert Join([c], r) == [s[0]] + rest[0];
          assert s == [s[0]] + s[1..];
        } else {
          assert r[1..] == rest[1..];
          assert Join([c], r) == [s[0]] + rest[0] + [c] + Join([c], rest[1..]);
          assert Join([c], rest) == rest[0] + [c] + Join([c], rest[1..]);
          assert s == [s[0]] + s[1..];
        }
      }
    }
  }

  /** Python's `str.isspace()` for one character. */
  predicate IsSpace(c: char)
  {
    c == ' ' || ('\t' <= c <= '\r') || ('\U{1c}' <= c <= '\U{1f}') || c == '\U{85}' ||
    c == '\U{a0}' || c == '\U{1680}' || ('\U{2000}' <= c <= '\U{200a}') ||
    c == '\U{2028}' || c == '\U{2029}' || c == '\U{202f}' || c == '\U{205f}' || c == '\U{3000}'
  }

  function StripLeft(s: string): (r: string)
    ensures r == [] || !IsSpace(r[0])
  {
    if s != [] && IsSpace(s[0]) then StripLeft(s[1..]) else s
  }

  function StripRight(s: string): (r: string)
    ensures IsPrefix(r, s)
    ensures r == [] || !IsSpace(r[|r| - 1])
  {
    if s != [] && IsSpace(s[|s| - 1]) then StripRight(s[..|s| - 1]) else s
  }

  /** Python `s.strip()`. */
  function Strip(s: string): (r: string)
    ensures r == [] || (!IsSpace(r[0]) && !IsSpace(r[|r| - 1]))
  {
    StripRight(StripLeft(s))
  }

  /** Cutting the leading white space leaves a suffix, and only white space was cut. */
  lemma {:induction false} StripLeftCuts(s: string)
    ensures |StripLeft(s)| <= |s| && StripLeft(s) == s[|s| - |StripLeft(s)|..]
    ensures forall k :: 0 <= k < |s| - |StripLeft(s)| ==> IsSpace(s[k])
  {
    if s != [] && IsSpace(s[0]) {
      StripLeftCuts(s[1..]);
    }
  }

  /** Cutting the trailing white space leaves a prefix, and only white space was cut. */
  lemma {:induction false} StripRightCuts(s: string)
    ensures |StripRight(s)| <= |s| && StripRight(s) == s[..|StripRight(s)|]
    ensures forall k :: |StripRight(s)| <= k < |s| ==> IsSpace(s[k])
  {
    if s != [] && IsSpace(s[|s| - 1]) {
      StripRightCuts(s[..|s| - 1]);
    }
  }

  /**
   * `s.strip()` is a slice of `s` with only white space cut off before and
   * after it; with the ends of the result not white space, that slice is
   * the one Python returns.
   */
  lemma StripIsTrimmedSlice(s: string)
    ensures var r := Strip(s);
      && (exists i, j :: 0 <= i <= j <= |s| && r == s[i..j]
                      && (forall k :: 0 <= k < i ==> IsSpace(s[k]))
                      && (forall k :: j <= k < |s| ==> IsSpace(s[k])))
      && (r == [] || (!IsSpace(r[0]) && !IsSpace(r[|r| - 1])))
  {
    var left := StripLeft(s);
    var r := StripRight(left);
    StripLeftCuts(s);
    StripRightCuts(left);
    TrimmedSlice(s, |s| - |left|, left, r);
  }

  /** A prefix of a suffix is a slice, cut where the suffix starts and the prefix ends. */
  lemma TrimmedSlice(s: string, i: nat, left: string, r: string)
    requires i <= |s| && left == s[i..] && |r| <= |left| && r == left[..|r|]
    requires forall k :: 0 <= k < i ==> IsSpace(s[k])
    requires forall k :: |r| <= k < |left| ==> IsSpace(left[k])
    ensures exists i', j :: 0 <= i' <= j <= |s| && r == s[i'..j]
                      && (forall k :: 0 <= k < i' ==> IsSpace(s[k]))
                      && (forall k :: j <= k < |s| ==> IsSpace(s[k]))
  {
    var j := i + |r|;
    assert r == s[i..j];
    forall k | j <= k < |s| ensures IsSpace(s[k]) {
      assert s[k] == left[k - i];
    }
  }

  /** Python `s.lower()`, for the ASCII letters. */
  function Lower(s: string): (r: string)
    ensures |r| == |s|
    ensures forall i :: 0 <= i < |s| ==> !('A' <= r[i] <= 'Z')
    ensures forall i :: 0 <= i < |s| ==>
              r[i] == (if 'A' <= s[i] <= 'Z' then (s[i] as int - 'A' as int + 'a' as int) as char else s[i])
  {
    if s == [] then ""
    else [if 'A' <= s[0] <= 'Z' then (s[0] as int + 32) as char else s[0]] + Lower(s[1..])
  }

  function DigitChar(d: nat): (c: char)
    requires d < 10
    ensures '0' <= c <= '9'
  {
    ('0' as int + d) as char
  }

  /** Decimal rendering of a natural number, as `str(n)` gives it. */
  function NatToString(n: nat): (r: string)
    ensures |r| >= 1
    ensures forall i :: 0 <= i < |r| ==> '0' <= r[i] <= '9'
    decreases n
  {
    if n < 10 then [DigitChar(n)] else NatToString(n / 10) + [DigitChar(n % 10)]
  }

  /** `str(i)` of an integer. */
  function IntToString(i: int): (r: string)
    ensures |r| >= 1
  {
    if i < 0 then "-" + NatToString(-i) else NatToString(i)
  }
}
