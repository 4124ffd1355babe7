/** Values and helpers shared by every module: JavaScript's nullable values and
    truthiness, the string tests the services use, and the list operations
    `Array.prototype.filter` and `[...new Set(xs)]`. */
module Common {

  datatype Option<T> = None | Some(value: T)

  datatype Result<T, E> = Ok(value: T) | Err(error: E)

  /** JavaScript truthiness of a nullable string: `null`, `undefined` and `''` are falsy. */
  predicate Truthy(o: Option<string>)
  {
    o.Some? && o.value != ""
  }

  /** `a || b` on nullable strings. */
  function OrElse(a: Option<string>, b: string): (r: string)
    ensures Truthy(a) ==> r == a.value
    ensures !Truthy(a) ==> r == b
  {
    if Truthy(a) then a.value else b
  }

  /** `s.startsWith(p)` */
  predicate StartsWith(s: string, p: string)
  {
    |p| <= |s| && s[..|p|] == p
  }

  /** `s.includes(sub)`, case-sensitive. */
  predicate Contains(s: string, sub: string)
    decreases |s|
  {
    StartsWith(s, sub) || (|s| > 0 && Contains(s[1..], sub))
  }

  /** `sub` occurs in `s` at offset `i`. */
  predicate OccursAt(s: string, sub: string, i: int)
  {
    0 <= i <= |s| - |sub| && s[i..i + |sub|] == sub
  }

  /** The recursive test finds exactly the offsets where `sub` occurs. */
  lemma {:induction false} ContainsAt(s: string, sub: string)
    ensures Contains(s, sub) <==> exists i :: OccursAt(s, sub, i)
    decreases |s|
  {
    if StartsWith(s, sub) {
      assert OccursAt(s, sub, 0);
    } else if |s| == 0 {
      assert forall i :: !OccursAt(s, sub, i);
    } else {
      ContainsAt(s[1..], sub);
      if exists i :: OccursAt(s, sub, i) {
        var i :| OccursAt(s, sub, i);
        assert i != 0;
        assert s[1..][i - 1..i - 1 + |sub|] == s[i..i + |sub|];
        assert OccursAt(s[1..], sub, i - 1);
      }
      if Contains(s[1..], sub) {
        var j :| OccursAt(s[1..], sub, j);
        assert s[1..][j..j + |sub|] == s[j + 1..j + 1 + |sub|];
        assert OccursAt(s, sub, j + 1);
      }
    }
  }

  /** A non-empty pattern whose first character does not occur in `s` is not contained in it. */
  lemma {:induction false} NotContainsWithoutFirstChar(s: string, sub: string)
    requires |sub| > 0 && sub[0] !in s
    ensures !Contains(s, sub)
    decreases |s|
  {
    if |s| > 0 {
      assert s[0] in s;
      assert forall c :: c in s[1..] ==> c in s;
      NotContainsWithoutFirstChar(s[1..], sub);
      assert !StartsWith(s, sub) by {
        if |sub| <= |s| { assert s[..|sub|][0] == s[0]; }
      }
    }
  }

  /** `s.indexOf(sub)`: the first offset where `sub` occurs. */
  function IndexOf(s: string, sub: string): (k: Option<nat>)
    ensures k.Some? ==> OccursAt(s, sub, k.value) && forall j :: 0 <= j < k.value ==> !OccursAt(s, sub, j)
    ensures k.None? ==> forall j :: !OccursAt(s, sub, j)
    decreases |s|
  {
    if StartsWith(s, sub) then
      assert OccursAt(s, sub, 0); Some(0)
    else if |s| == 0 then None
    else
      var rest := IndexOf(s[1..], sub);
      ShiftOccurrence(s, sub);
      assert !OccursAt(s, sub, 0);
      assert forall j :: OccursAt(s, sub, j) ==> j >= 1 && OccursAt(s[1..], sub, j - 1);
      if rest.None? then None else Some(rest.value + 1)
  }

  /** An occurrence in the tail is an occurrence one further along in the whole. */
  lemma ShiftOccurrence(s: string, sub: string)
    requires |s| > 0
    ensures forall j :: j >= 0 ==> (OccursAt(s[1..], sub, j) <==> OccursAt(s, sub, j + 1))
  {
    forall j | j >= 0 ensures OccursAt(s[1..], sub, j) <==> OccursAt(s, sub, j + 1) {
      if 0 <= j <= |s| - 1 - |sub| {
        assert s[1..][j..j + |sub|] == s[j + 1..j + 1 + |sub|];
      }
    }
  }

  /** `s.replace(pat, rep)` with a string pattern: only the first occurrence is replaced. */
  function ReplaceFirst(s: string, pat: string, rep: string): (r: string)
    ensures IndexOf(s, pat).None? ==> r == s
    ensures IndexOf(s, pat).Some? ==>
              var k := IndexOf(s, pat).value; r == s[..k] + rep + s[k + |pat|..]
  {
    match IndexOf(s, pat)
    case None => s
    case Some(k) => s[..k] + rep + s[k + |pat|..]
  }

  /** Removing a prefix with `replace` gives back what followed it. */
  lemma ReplacePrefix(p: string, t: string)
    ensures ReplaceFirst(p + t, p, "") == t
  {
    assert StartsWith(p + t, p);
    assert IndexOf(p + t, p) == Some(0);
    assert (p + t)[|p|..] == t;
  }

  /** A string contains itself extended on either side. */
  lemma {:induction false} ContainsInfix(a: string, sub: string, b: string)
    ensures Contains(a + sub + b, sub)
  {
    var s := a + sub + b;
    assert s[|a|..|a| + |sub|] == sub;
    assert OccursAt(s, sub, |a|);
    ContainsAt(s, sub);
  }

  /** `s.split(sep)` for a one-character separator: the pieces between
      separators, empty ones included. */
  function Split(s: string, sep: char): (parts: seq<string>)
    ensures |parts| >= 1
    ensures forall k :: 0 <= k < |parts| ==> sep !in parts[k]
    decreases |s|
  {
    if s == [] then [[]]
    else if s[0] == sep then [[]] + Split(s[1..], sep)
    else
      var rest := Split(s[1..], sep);
      [[s[0]] + rest[0]] + rest[1..]
  }

  /** A string without the separator is one part; a separator splits off the text before it. */
  lemma {:induction false} SplitAt(a: string, sep: char, b: string)
    requires sep !in a
    ensures Split(a, sep) == [a]
    ensures Split(a + [sep] + b, sep) == [a] + Split(b, sep)
    decreases |a|
  {
    if |a| == 0 {
      assert a + [sep] + b == [sep] + b;
      assert ([sep] + b)[1..] == b;
    } else {
      assert a[0] in a;
      assert forall x :: x in a[1..] ==> x in a;
      SplitAt(a[1..], sep, b);
      assert (a + [sep] + b)[1..] == a[1..] + [sep] + b;
      assert [a[0]] + a[1..] == a;
    }
  }

  /** Text without the separator splits into itself alone. */
  lemma NoSeparatorOnePart(s: string, sep: char)
    ensures sep !in s ==> Split(s, sep) == [s]
  {
    if sep !in s {
      SplitAt(s, sep, "");
    }
  }

  /** `parts.join(sep)` */
  function Join(parts: seq<string>, sep: char): (s: string)
    ensures parts == [] ==> s == ""
    ensures parts != [] ==> |s| >= |parts[0]| && s[..|parts[0]|] == parts[0]
    ensures |parts| > 1 ==> |s| > |parts[0]| && s[|parts[0]|] == sep
    decreases |parts|
  {
    if parts == [] then ""
    else if |parts| == 1 then parts[0]
    else parts[0] + [sep] + Join(parts[1..], sep)
  }

  /** Joining the pieces gives the text back. */
  lemma {:induction false} JoinSplit(s: string, sep: char)
    ensures Join(Split(s, sep), sep) == s
    decreases |s|
  {
    if s != [] {
      JoinSplit(s[1..], sep);
      var rest := Split(s[1..], sep);
      if s[0] != sep {
        var parts := [[s[0]] + rest[0]] + rest[1..];
        if |rest| > 1 {
          assert parts[1..] == rest[1..];
          assert Join(rest, sep) == rest[0] + [sep] + Join(rest[1..], sep);
        }
      }
    }
  }

  /** Pieces without the separator survive the join: splitting the joined
      text gives back the list. */
  lemma {:induction false} SplitJoin(parts: seq<string>, sep: char)
    requires |parts| >= 1 && forall i :: 0 <= i < |parts| ==> sep !in parts[i]
    ensures Split(Join(parts, sep), sep) == parts
    decreases |parts|
  {
    if |parts| == 1 {
      SplitAt(parts[0], sep, "");
    } else {
      SplitJoin(parts[1..], sep);
      SplitAt(parts[0], sep, Join(parts[1..], sep));
      assert [parts[0]] + parts[1..] == parts;
    }
  }

  /** ASCII `toLowerCase` of one character. */
  function LowerChar(c: char): (r: char)
    ensures 'A' <= c <= 'Z' ==> 'a' <= r <= 'z'
    ensures !('A' <= c <= 'Z') ==> r == c
  {
    if 'A' <= c <= 'Z' then (c as int + 32) as char else c
  }

  /** ASCII `toUpperCase` of one character. */
  function UpperChar(c: char): (r: char)
    ensures 'a' <= c <= 'z' ==> 'A' <= r <= 'Z'
    ensures !('a' <= c <= 'z') ==> r == c
  {
    if 'a' <= c <= 'z' then (c as int - 32) as char else c
  }

  /** `s.toLowerCase()` restricted to ASCII letters (no Unicode case mapping). */
  function ToLower(s: string): (r: string)
    ensures |r| == |s|
    ensures forall i :: 0 <= i < |s| ==> r[i] == LowerChar(s[i])
  {
    seq(|s|, i requires 0 <= i < |s| => LowerChar(s[i]))
  }

  /** `s.toUpperCase()` restricted to ASCII letters. */
  function ToUpper(s: string): (r: string)
    ensures |r| == |s|
    ensures forall i :: 0 <= i < |s| ==> r[i] == UpperChar(s[i])
  {
    seq(|s|, i requires 0 <= i < |s| => UpperChar(s[i]))
  }

  /** `Array.prototype.filter`, order preserved. */
  function Filter<T>(xs: seq<T>, p: T -> bool): (r: seq<T>)
    ensures |r| <= |xs|
    ensures forall x :: x in r ==> x in xs && p(x)
    ensures forall x :: x in xs && p(x) ==> x in r
    decreases |xs|
  {
    if xs == [] then []
    else if p(xs[0]) then [xs[0]] + Filter(xs[1..], p)
    else Filter(xs[1..], p)
  }

  /** Filtering distributes over concatenation. */
  lemma {:induction false} FilterAppend<T>(a: seq<T>, b: seq<T>, p: T -> bool)
    ensures Filter(a + b, p) == Filter(a, p) + Filter(b, p)
    decreases |a|
  {
    if a == [] {
      assert a + b == b;
    } else {
      assert (a + b)[1..] == a[1..] + b;
      FilterAppend(a[1..], b, p);
    }
  }

  /** Two filters that agree on every element keep the same elements. */
  lemma {:induction false} FilterExt<T>(xs: seq<T>, p: T -> bool, q: T -> bool)
    requires forall x :: x in xs ==> p(x) == q(x)
    ensures Filter(xs, p) == Filter(xs, q)
    decreases |xs|
  {
    if xs != [] {
      assert forall x :: x in xs[1..] ==> x in xs;
      FilterExt(xs[1..], p, q);
    }
  }

  /** Chained filters (the Supabase builder, the frontend effect) equal one filter on the conjunction. */
  lemma {:induction false} FilterFilter<T>(xs: seq<T>, p: T -> bool, q: T -> bool, pq: T -> bool)
    requires forall x :: x in xs ==> pq(x) == (p(x) && q(x))
    ensures Filter(Filter(xs, p), q) == Filter(xs, pq)
    decreases |xs|
  {
    if xs != [] {
      assert forall x :: x in xs[1..] ==> x in xs;
      FilterFilter(xs[1..], p, q, pq);
    }
  }

  /** A filter whose predicate holds everywhere keeps the list. */
  lemma {:induction false} FilterAll<T>(xs: seq<T>, p: T -> bool)
    requires forall x :: x in xs ==> p(x)
    ensures Filter(xs, p) == xs
    decreases |xs|
  {
    if xs != [] {
      assert forall x :: x in xs[1..] ==> x in xs;
      FilterAll(xs[1..], p);
    }
  }

  /** `xs.reverse()` */
  function Reverse<T>(xs: seq<T>): (r: seq<T>)
    ensures |r| == |xs|
    ensures forall i :: 0 <= i < |xs| ==> r[i] == xs[|xs| - 1 - i]
    decreases |xs|
  {
    if xs == [] then [] else Reverse(xs[1..]) + [xs[0]]
  }

  /** Reversal keeps the same elements. */
  lemma ReverseMembers<T>(xs: seq<T>)
    ensures forall x :: x in Reverse(xs) <==> x in xs
  {
    forall x | x in xs ensures x in Reverse(xs) {
      var i :| 0 <= i < |xs| && xs[i] == x;
      assert Reverse(xs)[|xs| - 1 - i] == x;
    }
  }

  /** No element occurs twice. */
  predicate NoDup<T(==)>(xs: seq<T>)
  {
    forall i, j :: 0 <= i < j < |xs| ==> xs[i] != xs[j]
  }

  /** `[...new Set(xs)]`: the first occurrence of each element, in order. */
  function Dedup<T(==)>(xs: seq<T>): (r: seq<T>)
    decreases |xs|
  {
    if xs == [] then []
    else
      var p := Dedup(xs[..|xs| - 1]);
      if xs[|xs| - 1] in p then p else p + [xs[|xs| - 1]]
  }

  /** Deduplication keeps exactly the elements of its input and repeats none of them. */
  lemma {:induction false} DedupSpec<T>(xs: seq<T>)
    ensures NoDup(Dedup(xs))
    ensures forall x :: x in Dedup(xs) <==> x in xs
    ensures |Dedup(xs)| <= |xs|
    decreases |xs|
  {
    if xs != [] {
      var init := xs[..|xs| - 1];
      DedupSpec(init);
      assert xs == init + [xs[|xs| - 1]];
    }
  }

  /** A list without repeats is its own deduplication. */
  lemma {:induction false} DedupNoDup<T>(xs: seq<T>)
    requires NoDup(xs)
    ensures Dedup(xs) == xs
    decreases |xs|
  {
    if xs != [] {
      var init := xs[..|xs| - 1];
      assert NoDup(init);
      DedupNoDup(init);
      assert xs[|xs| - 1] !in init;
      assert xs == init + [xs[|xs| - 1]];
    }
  }

  /** Deduplicating `a + b` keeps the deduplication of `a` as a prefix: the
      elements of `a` come first, in their own order. */
  lemma {:induction false} DedupPrefix<T>(a: seq<T>, b: seq<T>)
    ensures |Dedup(a)| <= |Dedup(a + b)|
    ensures Dedup(a + b)[..|Dedup(a)|] == Dedup(a)
    decreases |b|
  {
    if b == [] {
      assert a + b == a;
    } else {
      var init := b[..|b| - 1];
      DedupPrefix(a, init);
      assert (a + b)[..|a + b| - 1] == a + init;
    }
  }

  /** The characters JavaScript's `trim` and `parseInt` treat as white space. */
  predicate JsSpace(c: char)
  {
    c == ' ' || c == '\t' || c == '\n' || c == '\r' || c == '\U{000B}' || c == '\U{000C}'
    || c == '\U{00A0}' || c == '\U{1680}' || ('\U{2000}' <= c <= '\U{200A}')
    || c == '\U{2028}' || c == '\U{2029}' || c == '\U{202F}' || c == '\U{205F}' || c == '\U{3000}' || c == '\U{FEFF}'
  }

  /** `s.trimStart()` */
  function TrimStart(s: string): (t: string)
    ensures |t| <= |s| && t == s[|s| - |t|..]
    ensures t == [] || !JsSpace(t[0])
    ensures forall i :: 0 <= i < |s| - |t| ==> JsSpace(s[i])
    decreases |s|
  {
    if s != [] && JsSpace(s[0]) then TrimStart(s[1..]) else s
  }

  /** `s.trimEnd()` */
  function TrimEnd(s: string): (t: string)
    ensures |t| <= |s| && t == s[..|t|]
    ensures t == [] || !JsSpace(t[|t| - 1])
    ensures forall i :: |t| <= i < |s| ==> JsSpace(s[i])
    decreases |s|
  {
    if s != [] && JsSpace(s[|s| - 1]) then TrimEnd(s[..|s| - 1]) else s
  }

  /** `s.trim()`: white space removed at both ends. */
  function Trim(s: string): (t: string)
    ensures |t| <= |s|
    ensures t == [] <==> forall i :: 0 <= i < |s| ==> JsSpace(s[i])
  {
    var u := TrimStart(s);
    assert TrimEnd(u) == [] ==> u == [];
    TrimEnd(u)
  }

  /** `t` is the stretch of `s` starting at offset `a`, neither starting nor
      ending with white space, with only white space before and after it. */
  predicate Stretch(s: string, a: int, t: string)
  {
    0 <= a && a + |t| <= |s| && t == s[a..a + |t|]
    && (t != [] ==> !JsSpace(t[0]) && !JsSpace(t[|t| - 1]))
    && (forall i :: 0 <= i < a ==> JsSpace(s[i]))
    && (forall i :: a + |t| <= i < |s| ==> JsSpace(s[i]))
  }

  /** A non-empty trimmed text is the stretch of `s` from its first to its
      last non-space character: only white space lies before and after it. */
  lemma TrimIsStretch(s: string)
    ensures Stretch(s, |s| - |TrimStart(s)|, Trim(s))
  {
    var u := TrimStart(s);
    var t := TrimEnd(u);
    assert t == Trim(s);
    PrefixOfSuffix(s, u, t);
  }

  /** A prefix `t` of a suffix `u` of `s`, where `u` starts after the leading
      white space of `s` and `t` drops only trailing white space of `u`, is
      the stretch of `s` between its leading and trailing white space. */
  lemma PrefixOfSuffix(s: string, u: string, t: string)
    requires |u| <= |s| && u == s[|s| - |u|..]
    requires u == [] || !JsSpace(u[0])
    requires forall i :: 0 <= i < |s| - |u| ==> JsSpace(s[i])
    requires |t| <= |u| && t == u[..|t|]
    requires t == [] || !JsSpace(t[|t| - 1])
    requires forall i :: |t| <= i < |u| ==> JsSpace(u[i])
    ensures Stretch(s, |s| - |u|, t)
  {
    var a := |s| - |u|;
    forall i | a + |t| <= i < |s| ensures JsSpace(s[i]) {
      assert s[i] == u[i - a];
    }
    if t != [] {
      assert t[0] == u[0];
    }
  }
}
