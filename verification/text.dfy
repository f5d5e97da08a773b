/** The JavaScript string operations the core relies on: `split`/`join` on a
    one-character separator, `trim`, and removing every occurrence of a
    character (`replace` with a global one-character pattern). */
module Text {

  /** The characters `String.prototype.trim` removes: the ECMAScript
      WhiteSpace code points (tab, vertical tab, form feed, space, no-break
      space, byte-order mark and the Zs space separators) and the
      LineTerminator code points. */
  predicate IsWhitespace(c: char) {
    c == '\t' || c == '\n' || c == '\U{000B}' || c == '\U{000C}' || c == '\r' ||
    c == ' ' || c == '\U{00A0}' || c == '\U{1680}' ||
    ('\U{2000}' <= c <= '\U{200A}') ||
    c == '\U{2028}' || c == '\U{2029}' || c == '\U{202F}' || c == '\U{205F}' ||
    c == '\U{3000}' || c == '\U{FEFF}'
  }

  predicate AllWhitespace(s: string) {
    forall k :: 0 <= k < |s| ==> IsWhitespace(s[k])
  }

  /** `s` with its leading whitespace removed: the longest suffix of `s`
      that does not start with whitespace. */
  function TrimStart(s: string): (r: string)
    ensures |r| <= |s| && r == s[|s| - |r|..]
    ensures AllWhitespace(s[..|s| - |r|])
    ensures r == "" || !IsWhitespace(r[0])
  {
    if s == "" || !IsWhitespace(s[0]) then s else TrimStart(s[1..])
  }

  /** `s` with its trailing whitespace removed: the longest prefix of `s`
      that does not end with whitespace. */
  function TrimEnd(s: string): (r: string)
    ensures |r| <= |s| && r == s[..|r|]
    ensures AllWhitespace(s[|r|..])
    ensures r == "" || !IsWhitespace(r[|r| - 1])
  {
    if s == "" || !IsWhitespace(s[|s| - 1]) then s else TrimEnd(s[..|s| - 1])
  }

  /** `r` is the slice of `s` starting at `a`, with only whitespace before
      and after it. */
  predicate TrimmedAt(s: string, r: string, a: int) {
    0 <= a && a + |r| <= |s| && r == s[a..a + |r|] &&
    AllWhitespace(s[..a]) && AllWhitespace(s[a + |r|..])
  }

  /** A character absent from `s` is absent from any slice of it. */
  lemma TrimmedAtKeeps(s: string, r: string, a: int, c: char)
    requires TrimmedAt(s, r, a) && c !in s
    ensures c !in r
  {
  }

  /** `String.prototype.trim`: `s` without its leading and trailing
      whitespace: a slice of `s` with only whitespace around it, empty exactly
      when `s` is all whitespace, and otherwise starting and ending with a
      character that is not whitespace. */
  function Trim(s: string): (r: string)
    ensures r == "" <==> AllWhitespace(s)
    ensures r == "" || (!IsWhitespace(r[0]) && !IsWhitespace(r[|r| - 1]))
    ensures exists a :: TrimmedAt(s, r, a)
  {
    var t := TrimStart(s);
    assert Stripped(s, t, TrimEnd(t));
    TrimEmpty(s, t, TrimEnd(t));
    TrimSlice(s, t, TrimEnd(t));
    TrimEnd(t)
  }

  /** A concatenation is all whitespace exactly when both halves are. */
  lemma AllWhitespaceAppend(x: string, y: string)
    ensures AllWhitespace(x + y) <==> AllWhitespace(x) && AllWhitespace(y)
  {
    if AllWhitespace(x + y) {
      forall k | 0 <= k < |x| ensures IsWhitespace(x[k]) {
        assert x[k] == (x + y)[k];
      }
      forall k | 0 <= k < |y| ensures IsWhitespace(y[k]) {
        assert y[k] == (x + y)[|x| + k];
      }
    }
    if AllWhitespace(x) && AllWhitespace(y) {
      forall k | 0 <= k < |x + y| ensures IsWhitespace((x + y)[k]) {
        if k < |x| {
          assert (x + y)[k] == x[k];
        } else {
          assert (x + y)[k] == y[k - |x|];
        }
      }
    }
  }

  /** `t` is `s` without its leading whitespace and `r` is `t` without its
      trailing whitespace, as `TrimStart` and `TrimEnd` ensure. */
  predicate Stripped(s: string, t: string, r: string) {
    |t| <= |s| && t == s[|s| - |t|..] && AllWhitespace(s[..|s| - |t|]) &&
    (t == "" || !IsWhitespace(t[0])) &&
    |r| <= |t| && r == t[..|r|] && AllWhitespace(t[|r|..])
  }

  lemma TrimEmpty(s: string, t: string, r: string)
    requires Stripped(s, t, r)
    ensures r == "" <==> AllWhitespace(s)
  {
    var a := |s| - |t|;
    assert s == s[..a] + t;
    AllWhitespaceAppend(s[..a], t);
    if r == "" {
      assert t[|r|..] == t;
    }
  }

  lemma TrimSlice(s: string, t: string, r: string)
    requires Stripped(s, t, r)
    ensures exists a :: TrimmedAt(s, r, a)
  {
    var a := |s| - |t|;
    assert AllWhitespace(s[..a]);
    assert t == s[a..];
    assert s[a..a + |r|] == t[..|r|];
    assert s[a + |r|..] == t[|r|..];
    assert AllWhitespace(s[a + |r|..]);
    assert TrimmedAt(s, r, a);
  }

  /** `s.replace(/c/g, '')`: every occurrence of `c` removed, all other
      characters kept with their multiplicities. */
  function RemoveAll(s: string, c: char): (r: string)
    ensures c !in r
  {
    if s == "" then ""
    else
      var rest := RemoveAll(s[1..], c);
      if s[0] == c then rest else [s[0]] + rest
  }

  /** Every character other than `c` keeps its multiplicity. */
  lemma {:induction false} RemoveAllMultiset(s: string, c: char)
    ensures multiset(RemoveAll(s, c)) == multiset(s)[c := 0]
  {
    if s != "" {
      RemoveAllMultiset(s[1..], c);
      assert s == [s[0]] + s[1..];
    }
  }

  /** `s.split(sep)`: the pieces of `s` between occurrences of `sep`; there is
      always at least one piece, and no piece contains `sep`. */
  function Split(s: string, sep: char): (parts: seq<string>)
    ensures |parts| >= 1
    ensures forall i :: 0 <= i < |parts| ==> sep !in parts[i]
  {
    if s == "" then [""]
    else if s[0] == sep then [""] + Split(s[1..], sep)
    else
      var rest := Split(s[1..], sep);
      [[s[0]] + rest[0]] + rest[1..]
  }

  /** `parts.join(sep)`: the parts with one `sep` between neighbours. */
  function Join(parts: seq<string>, sep: char): (s: string)
    ensures |parts| >= 1 ==> parts[0] <= s
  {
    if |parts| == 0 then ""
    else if |parts| == 1 then parts[0]
    else parts[0] + [sep] + Join(parts[1..], sep)
  }

  /** A join of separator-free parts holds one separator between each pair
      of neighbours and no other. */
  lemma {:induction false} JoinCount(parts: seq<string>, sep: char)
    requires forall i :: 0 <= i < |parts| ==> sep !in parts[i]
    ensures multiset(Join(parts, sep))[sep] == if parts == [] then 0 else |parts| - 1
  {
    if |parts| >= 2 {
      JoinCount(parts[1..], sep);
    }
  }

  /** Joining the pieces of a split restores the string. */
  lemma {:induction false} JoinSplit(s: string, sep: char)
    ensures Join(Split(s, sep), sep) == s
  {
    if s == "" {
    } else if s[0] == sep {
      JoinSplit(s[1..], sep);
      var rest := Split(s[1..], sep);
      assert Split(s, sep) == [""] + rest;
      assert s == [sep] + s[1..];
    } else {
      JoinSplit(s[1..], sep);
      var rest := Split(s[1..], sep);
      var parts := Split(s, sep);
      assert parts == [[s[0]] + rest[0]] + rest[1..];
      if |rest| == 1 {
        assert Join(parts, sep) == [s[0]] + rest[0];
      } else {
        assert parts[1..] == rest[1..];
        assert Join(rest, sep) == rest[0] + [sep] + Join(rest[1..], sep);
        assert Join(parts, sep) == [s[0]] + rest[0] + [sep] + Join(rest[1..], sep);
      }
      assert s == [s[0]] + s[1..];
    }
  }

  /** Splitting `w + t` for a separator-free `w` only prefixes `w` to the
      first piece of `t`. */
  lemma {:induction false} SplitPrefix(w: string, t: string, sep: char)
    requires sep !in w
    ensures Split(w + t, sep) == [w + Split(t, sep)[0]] + Split(t, sep)[1..]
  {
    if w != "" {
      SplitPrefix(w[1..], t, sep);
      var tail := Split(t, sep);
      assert (w + t)[1..] == w[1..] + t;
      assert (w + t)[0] == w[0] != sep;
      var rest := Split(w[1..] + t, sep);
      assert rest[0] == w[1..] + tail[0];
      assert rest[1..] == tail[1..];
      assert Split(w + t, sep) == [[w[0]] + rest[0]] + rest[1..];
      assert [w[0]] + (w[1..] + tail[0]) == w + tail[0];
    } else {
      assert w + t == t;
      assert w + Split(t, sep)[0] == Split(t, sep)[0];
      assert Split(t, sep) == [Split(t, sep)[0]] + Split(t, sep)[1..];
    }
  }

  /** Splitting a join of separator-free parts gives the parts back. */
  lemma {:induction false} SplitJoin(parts: seq<string>, sep: char)
    requires |parts| >= 1
    requires forall i :: 0 <= i < |parts| ==> sep !in parts[i]
    ensures Split(Join(parts, sep), sep) == parts
  {
    if |parts| == 1 {
      SplitPrefix(parts[0], "", sep);
      assert parts[0] + "" == parts[0];
      assert Split("", sep) == [""];
    } else {
      var rest := Join(parts[1..], sep);
      SplitJoin(parts[1..], sep);
      SplitPrefix(parts[0], [sep] + rest, sep);
      assert parts[0] + [sep] + rest == parts[0] + ([sep] + rest);
      assert ([sep] + rest)[1..] == rest;
      assert ([sep] + rest)[0] == sep;
      assert Split([sep] + rest, sep) == [""] + parts[1..];
      assert parts[0] + "" == parts[0];
      assert parts == [parts[0]] + parts[1..];
    }
  }

  /** Joining two non-empty lists puts one separator between their joins. */
  lemma {:induction false} JoinAppend(xs: seq<string>, ys: seq<string>, sep: char)
    requires |xs| >= 1 && |ys| >= 1
    ensures Join(xs + ys, sep) == Join(xs, sep) + [sep] + Join(ys, sep)
  {
    if |xs| == 1 {
      assert (xs + ys)[1..] == ys;
    } else {
      JoinAppend(xs[1..], ys, sep);
      assert (xs + ys)[1..] == xs[1..] + ys;
      assert (xs + ys)[0] == xs[0];
    }
  }

  /** A join at the head of a join is the join of the flattened list. */
  lemma JoinFirstFlatten(inner: seq<string>, tail: seq<string>, sep: char)
    requires |inner| >= 1 && |tail| >= 1
    ensures Join([Join(inner, sep)] + tail, sep) == Join(inner + tail, sep)
  {
    var block := Join(inner, sep);
    JoinAppend([block], tail, sep);
    JoinAppend(inner, tail, sep);
    assert Join([block], sep) == block;
  }

  /** A join nested in a join is the join of the flattened list. */
  lemma JoinFlatten(head: seq<string>, inner: seq<string>, tail: seq<string>, sep: char)
    requires |head| >= 1 && |inner| >= 1 && |tail| >= 1
    ensures Join(head + [Join(inner, sep)] + tail, sep) == Join(head + inner + tail, sep)
  {
    ConcatAssoc(head, [Join(inner, sep)], tail);
    ConcatAssoc(head, inner, tail);
    JoinFirstFlatten(inner, tail, sep);
    JoinSameTail(head, [Join(inner, sep)] + tail, inner + tail, sep);
  }

  lemma ConcatAssoc(xs: seq<string>, ys: seq<string>, zs: seq<string>)
    ensures xs + ys + zs == xs + (ys + zs)
  {
  }

  /** Lists with the same head and equally joined tails join equally. */
  lemma JoinSameTail(head: seq<string>, rest1: seq<string>, rest2: seq<string>, sep: char)
    requires |head| >= 1 && |rest1| >= 1 && |rest2| >= 1
    requires Join(rest1, sep) == Join(rest2, sep)
    ensures Join(head + rest1, sep) == Join(head + rest2, sep)
  {
    JoinAppend(head, rest1, sep);
    JoinAppend(head, rest2, sep);
  }

  /** Splitting the join of three lists of separator-free lines gives the
      lines back. */
  lemma SplitJoin3(head: seq<string>, inner: seq<string>, tail: seq<string>, sep: char)
    requires |head| >= 1
    requires forall k :: 0 <= k < |head| ==> sep !in head[k]
    requires forall k :: 0 <= k < |inner| ==> sep !in inner[k]
    requires forall k :: 0 <= k < |tail| ==> sep !in tail[k]
    ensures Split(Join(head + inner + tail, sep), sep) == head + inner + tail
  {
    var all := head + inner + tail;
    forall k | 0 <= k < |all| ensures sep !in all[k] {
      if k < |head| { assert all[k] == head[k]; }
      else if k < |head| + |inner| { assert all[k] == inner[k - |head|]; }
      else { assert all[k] == tail[k - |head| - |inner|]; }
    }
    SplitJoin(all, sep);
  }

  /** Splitting a join in which one entry is itself a join of separator-free
      lines gives back all lines, flattened. */
  lemma SplitNested(head: seq<string>, inner: seq<string>, tail: seq<string>, sep: char)
    requires |head| >= 1 && |inner| >= 1 && |tail| >= 1
    requires forall k :: 0 <= k < |head| ==> sep !in head[k]
    requires forall k :: 0 <= k < |inner| ==> sep !in inner[k]
    requires forall k :: 0 <= k < |tail| ==> sep !in tail[k]
    ensures Split(Join(head + [Join(inner, sep)] + tail, sep), sep) == head + inner + tail
  {
    JoinFlatten(head, inner, tail, sep);
    SplitJoin3(head, inner, tail, sep);
  }

  /** Removing from a one-character string keeps that character exactly when
      it is not the one removed. */
  lemma RemoveAllSingle(d: char, c: char)
    ensures RemoveAll([d], c) == if d == c then "" else [d]
  {
  }

  /** Removal works piecewise: removing from a concatenation concatenates
      the removals, so together with `RemoveAllSingle` the kept characters
      stay in their original order. */
  lemma {:induction false} RemoveAllAppend(x: string, y: string, c: char)
    ensures RemoveAll(x + y, c) == RemoveAll(x, c) + RemoveAll(y, c)
  {
    if x != "" {
      RemoveAllAppend(x[1..], y, c);
      var h := if x[0] == c then "" else [x[0]];
      assert (x + y)[1..] == x[1..] + y;
      assert (x + y)[0] == x[0];
      assert RemoveAll(x, c) == h + RemoveAll(x[1..], c);
      assert RemoveAll(x + y, c) == h + RemoveAll(x[1..] + y, c);
      assert h + (RemoveAll(x[1..], c) + RemoveAll(y, c)) ==
        (h + RemoveAll(x[1..], c)) + RemoveAll(y, c);
    } else {
      assert x + y == y;
    }
  }

  /** Removing a character that does not occur changes nothing. */
  lemma {:induction false} RemoveAllAbsent(s: string, c: char)
    requires c !in s
    ensures RemoveAll(s, c) == s
  {
    if s != "" {
      RemoveAllAbsent(s[1..], c);
      assert s == [s[0]] + s[1..];
    }
  }

  /** Trimming a string that neither starts nor ends with whitespace changes
      nothing. */
  lemma TrimTrimmed(s: string)
    requires s == "" || (!IsWhitespace(s[0]) && !IsWhitespace(s[|s| - 1]))
    ensures Trim(s) == s
  {
  }

  /** A string splits into one more piece than it has separators. */
  lemma {:induction false} SplitCount(s: string, sep: char)
    ensures |Split(s, sep)| == multiset(s)[sep] + 1
  {
    if s != "" {
      SplitCount(s[1..], sep);
      assert s == [s[0]] + s[1..];
    }
  }
}
