/**
 * The JavaScript built-ins the services rely on, stated over Dafny strings and
 * sequences: `trim`, `split`, `join`, `includes`, `toLowerCase`, `replace`,
 * `parseInt`, the decimal rendering of an integer, `filter` and `slice` with a
 * negative start. Each is given the meaning it has in JavaScript, restricted to
 * what the services feed it.
 */
module Builtins {
  import opened Wrappers

  function Min(a: int, b: int): int { if a <= b then a else b }
  function Max(a: int, b: int): int { if a <= b then b else a }

  // ---------------------------------------------------------------------------
  // White space
  // ---------------------------------------------------------------------------

  /** JavaScript truthiness of an optional string: present and not empty. */
  predicate Truthy(s: Option<string>) {
    s.Some? && s.value != []
  }

  /** The characters JavaScript's `\s` matches and `trim` removes: white space and line terminators. */
  predicate IsSpace(c: char) {
    || c == ' ' || c == '\t' || c == '\n' || c == '\r' || c == '\U{000B}' || c == '\U{000C}'
    || c == '\U{00A0}' || c == '\U{1680}' || ('\U{2000}' <= c <= '\U{200A}')
    || c == '\U{2028}' || c == '\U{2029}' || c == '\U{202F}' || c == '\U{205F}'
    || c == '\U{3000}' || c == '\U{FEFF}'
  }

  predicate NoSpace(s: string) {
    forall i :: 0 <= i < |s| ==> !IsSpace(s[i])
  }

  /** `s.trimStart()`: drops the leading white space and nothing else. */
  function TrimStart(s: string): (r: string)
    ensures |r| <= |s| && r == s[|s| - |r|..]
    ensures r == [] || !IsSpace(r[0])
    ensures forall i :: 0 <= i < |s| - |r| ==> IsSpace(s[i])
  {
    if s != [] && IsSpace(s[0]) then TrimStart(s[1..]) else s
  }

  /** `s.trimEnd()`: drops the trailing white space and nothing else. */
  function TrimEnd(s: string): (r: string)
    ensures |r| <= |s| && r == s[..|r|]
    ensures r == [] || !IsSpace(r[|r| - 1])
    ensures forall i :: |r| <= i < |s| ==> IsSpace(s[i])
  {
    if s != [] && IsSpace(s[|s| - 1]) then TrimEnd(s[..|s| - 1]) else s
  }

  /** `s.trim()` */
  function Trim(s: string): (r: string)
    ensures r == [] || (!IsSpace(r[0]) && !IsSpace(r[|r| - 1]))
  {
    TrimEnd(TrimStart(s))
  }

  /** A string of white space only: what `s.trim()` empties. */
  predicate Blank(s: string) {
    forall i :: 0 <= i < |s| ==> IsSpace(s[i])
  }

  /** `s.trim()` is empty (falsy) exactly when the string is blank. */
  lemma TrimEmptyIffBlank(s: string)
    ensures Trim(s) == [] <==> Blank(s)
  {
  }

  // ---------------------------------------------------------------------------
  // Splitting and joining
  // ---------------------------------------------------------------------------

  /** `parts.join(sep)` for a one-character separator. */
  function JoinWith(parts: seq<string>, sep: char): string {
    if |parts| == 0 then []
    else if |parts| == 1 then parts[0]
    else parts[0] + [sep] + JoinWith(parts[1..], sep)
  }

  lemma JoinWithConsChar(c: char, parts: seq<string>, sep: char)
    requires |parts| >= 1
    ensures JoinWith([[c] + parts[0]] + parts[1..], sep) == [c] + JoinWith(parts, sep)
  {
    var q := [[c] + parts[0]] + parts[1..];
    assert q[1..] == parts[1..];
  }

  /**
   * `s.split(sep)` for a one-character separator. The contract determines the
   * result completely: the pieces hold no separator, and joining them with the
   * separator gives back `s`.
   */
  function SplitOn(s: string, sep: char): (parts: seq<string>)
    ensures |parts| >= 1
    ensures forall i :: 0 <= i < |parts| ==> sep !in parts[i]
    ensures JoinWith(parts, sep) == s
    decreases |s|
  {
    if s == [] then [[]]
    else
      var rest := SplitOn(s[1..], sep);
      if s[0] == sep then
        assert ([[]] + rest)[1..] == rest;
        [[]] + rest
      else
        JoinWithConsChar(s[0], rest, sep);
        [[s[0]] + rest[0]] + rest[1..]
  }

  /** In a join of separator-free pieces, the first separator ends the first piece. */
  lemma JoinWithFirstSeparator(parts: seq<string>, sep: char)
    requires |parts| >= 1
    requires forall i :: 0 <= i < |parts| ==> sep !in parts[i]
    ensures IndexOf(JoinWith(parts, sep), [sep]) == if |parts| == 1 then None else Some(|parts[0]|)
  {
    var s := JoinWith(parts, sep);
    forall j: nat | j < |parts[0]|
      ensures !OccursAt(s, [sep], j)
    {
      if j + 1 <= |s| {
        assert s[j..j + 1][0] == s[j] == parts[0][j];
      }
    }
    if |parts| == 1 {
      forall j: nat
        ensures !OccursAt(s, [sep], j)
      {
        if j + 1 <= |s| {
          assert s[j..j + 1][0] == s[j] == parts[0][j];
        }
      }
    } else {
      assert OccursAt(s, [sep], |parts[0]|);
    }
  }

  /** Pieces free of the separator are recovered from their join: at most one list of pieces has a given join. */
  lemma {:induction false} JoinWithInjective(p: seq<string>, q: seq<string>, sep: char)
    requires |p| >= 1 && |q| >= 1
    requires forall i :: 0 <= i < |p| ==> sep !in p[i]
    requires forall i :: 0 <= i < |q| ==> sep !in q[i]
    requires JoinWith(p, sep) == JoinWith(q, sep)
    ensures p == q
    decreases |p|
  {
    var s := JoinWith(p, sep);
    JoinWithFirstSeparator(p, sep);
    JoinWithFirstSeparator(q, sep);
    if |p| >= 2 {
      assert p[0] == s[..|p[0]|] == q[0];
      assert JoinWith(p[1..], sep) == s[|p[0]| + 1..] == JoinWith(q[1..], sep);
      JoinWithInjective(p[1..], q[1..], sep);
      assert p == [p[0]] + p[1..];
      assert q == [q[0]] + q[1..];
    }
  }

  /** Splitting a join of separator-free pieces gives back the pieces. */
  lemma SplitOnOfJoin(parts: seq<string>, sep: char)
    requires |parts| >= 1
    requires forall i :: 0 <= i < |parts| ==> sep !in parts[i]
    ensures SplitOn(JoinWith(parts, sep), sep) == parts
  {
    JoinWithInjective(SplitOn(JoinWith(parts, sep), sep), parts, sep);
  }

  /** Joining two or more pieces ends with the separator and the last piece. */
  lemma {:induction false} JoinWithLast(parts: seq<string>, sep: char)
    requires |parts| >= 2
    ensures JoinWith(parts, sep) == JoinWith(parts[..|parts| - 1], sep) + [sep] + parts[|parts| - 1]
    decreases |parts|
  {
    var n := |parts|;
    if n > 2 {
      JoinWithLast(parts[1..], sep);
      assert parts[1..][..n - 2] == parts[..n - 1][1..];
      assert parts[1..][n - 2] == parts[n - 1];
    } else {
      assert parts[..1] == [parts[0]];
    }
  }

  /** The longest prefix of `s` without white space. */
  function WordPrefix(s: string): (w: string)
    ensures |w| <= |s| && w == s[..|w|] && NoSpace(w)
    ensures |w| < |s| ==> IsSpace(s[|w|])
  {
    if s == [] || IsSpace(s[0]) then [] else [s[0]] + WordPrefix(s[1..])
  }

  /**
   * The maximal runs of non-space characters of `s`, in order. For a string
   * that is not all white space this is `s.trim().split(/\s+/)`.
   */
  function Words(s: string): (ws: seq<string>)
    ensures forall i :: 0 <= i < |ws| ==> ws[i] != [] && NoSpace(ws[i])
    decreases |s|
  {
    if s == [] then []
    else if IsSpace(s[0]) then Words(s[1..])
    else
      var w := WordPrefix(s);
      [w] + Words(s[|w|..])
  }

  lemma {:induction false} WordPrefixOfWord(w: string, rest: string)
    requires NoSpace(w)
    requires rest == [] || IsSpace(rest[0])
    ensures WordPrefix(w + rest) == w
    decreases |w|
  {
    if w == [] {
      assert w + rest == rest;
    } else {
      assert (w + rest)[1..] == w[1..] + rest;
      WordPrefixOfWord(w[1..], rest);
      assert [w[0]] + w[1..] == w;
    }
  }

  /** Splitting words joined by single spaces gives the words back. */
  lemma {:induction false} WordsOfJoin(ws: seq<string>)
    requires forall i :: 0 <= i < |ws| ==> ws[i] != [] && NoSpace(ws[i])
    ensures Words(JoinWith(ws, ' ')) == ws
    decreases |ws|
  {
    if |ws| == 1 {
      var w := ws[0];
      WordPrefixOfWord(w, []);
      assert w + [] == w;
      assert w[|w|..] == [];
    } else if |ws| > 1 {
      var w, rest := ws[0], JoinWith(ws[1..], ' ');
      var s := w + [' '] + rest;
      WordPrefixOfWord(w, [' '] + rest);
      assert s == w + ([' '] + rest);
      assert s[|w|..] == [' '] + rest;
      assert ([' '] + rest)[1..] == rest;
      WordsOfJoin(ws[1..]);
      assert [w] + ws[1..] == ws;
    }
  }

  // ---------------------------------------------------------------------------
  // Searching and replacing
  // ---------------------------------------------------------------------------

  predicate OccursAt(s: string, pat: string, i: nat) {
    i + |pat| <= |s| && s[i..i + |pat|] == pat
  }

  /** `s.includes(pat)`; every string includes the empty string. */
  predicate Contains(s: string, pat: string) {
    exists i :: 0 <= i <= |s| - |pat| && OccursAt(s, pat, i)
  }

  function FindFrom(s: string, pat: string, from: nat): (r: Option<nat>)
    ensures r.Some? ==> from <= r.value && OccursAt(s, pat, r.value)
    ensures forall j: nat :: from <= j && (r.None? || j < r.value) ==> !OccursAt(s, pat, j)
    decreases |s| - from
  {
    if from + |pat| > |s| then None
    else if OccursAt(s, pat, from) then Some(from)
    else FindFrom(s, pat, from + 1)
  }

  /** `s.indexOf(pat)`: the first position where `pat` occurs, if any. */
  function IndexOf(s: string, pat: string): (r: Option<nat>)
    ensures r.None? <==> !Contains(s, pat)
    ensures r.Some? ==> OccursAt(s, pat, r.value)
    ensures r.Some? ==> forall j: nat :: j < r.value ==> !OccursAt(s, pat, j)
  {
    FindFrom(s, pat, 0)
  }

  /** `s.replace(pat, rep)` with a string pattern: only the first occurrence is replaced. */
  function ReplaceFirst(s: string, pat: string, rep: string): string {
    match IndexOf(s, pat)
    case None => s
    case Some(i) => s[..i] + rep + s[i + |pat|..]
  }

  // ---------------------------------------------------------------------------
  // Case and white-space folding
  // ---------------------------------------------------------------------------

  predicate IsUpper(c: char) { 'A' <= c <= 'Z' }

  function LowerChar(c: char): (d: char)
    ensures !IsUpper(d)
  {
    if IsUpper(c) then (c as int + 32) as char else c
  }

  /** `s.toLowerCase()` on ASCII letters. */
  function ToLower(s: string): (r: string)
    ensures |r| == |s|
    ensures forall i :: 0 <= i < |s| ==> r[i] == LowerChar(s[i])
  {
    seq(|s|, i requires 0 <= i < |s| => LowerChar(s[i]))
  }

  /** `s.replace(/\s+/g, '-')`: every maximal run of white space becomes a single `-`. */
  function CollapseSpaces(s: string): (r: string)
    ensures NoSpace(r)
    ensures |r| <= |s|
    ensures forall i :: 0 <= i < |r| ==> r[i] == '-' || r[i] in s
    decreases |s|
  {
    if s == [] then []
    else if IsSpace(s[0]) then
      var rest := TrimStart(s[1..]);
      assert forall i :: 0 <= i < |rest| ==> rest[i] == s[|s| - |rest| + i];
      "-" + CollapseSpaces(rest)
    else [s[0]] + CollapseSpaces(s[1..])
  }

  /** Every string of the list lower-cased. */
  function LowerEach(ws: seq<string>): (r: seq<string>)
    ensures |r| == |ws|
    ensures forall i :: 0 <= i < |ws| ==> r[i] == ToLower(ws[i])
  {
    seq(|ws|, i requires 0 <= i < |ws| => ToLower(ws[i]))
  }

  /** Lower-casing a join lower-cases each piece and keeps a separator that is not an upper-case letter. */
  lemma {:induction false} ToLowerOfJoin(ws: seq<string>, sep: char)
    requires !IsUpper(sep)
    ensures ToLower(JoinWith(ws, sep)) == JoinWith(LowerEach(ws), sep)
    decreases |ws|
  {
    if |ws| >= 2 {
      var rest := JoinWith(ws[1..], sep);
      assert JoinWith(ws, sep) == ws[0] + [sep] + rest;
      ToLowerOfJoin(ws[1..], sep);
      assert LowerEach(ws)[1..] == LowerEach(ws[1..]);
      assert ToLower(ws[0] + [sep] + rest) == ToLower(ws[0]) + [sep] + ToLower(rest);
    }
  }

  /** A character that is not white space passes through `CollapseSpaces` unchanged. */
  lemma CollapseSpacesCons(c: char, s: string)
    requires !IsSpace(c)
    ensures CollapseSpaces([c] + s) == [c] + CollapseSpaces(s)
  {
    assert ([c] + s)[1..] == s;
  }

  /** A leading word free of white space passes through `CollapseSpaces` unchanged. */
  lemma {:induction false} CollapseSpacesAfterWord(w: string, t: string)
    requires NoSpace(w)
    ensures CollapseSpaces(w + t) == w + CollapseSpaces(t)
    decreases |w|
  {
    if w == [] {
      assert w + t == t;
    } else {
      var c, v := w[0], w[1..];
      assert w == [c] + v && w + t == [c] + (v + t);
      assert NoSpace(v) by {
        forall i | 0 <= i < |v|
          ensures !IsSpace(v[i])
        {
          assert v[i] == w[i + 1];
        }
      }
      CollapseSpacesAfterWord(v, t);
      CollapseSpacesCons(c, v + t);
    }
  }

  /** Trimming the start of a blank run followed by a non-blank start leaves exactly the rest. */
  lemma {:induction false} TrimStartAfterBlank(b: string, t: string)
    requires Blank(b)
    requires t == [] || !IsSpace(t[0])
    ensures TrimStart(b + t) == t
    decreases |b|
  {
    if b == [] {
      assert b + t == t;
    } else {
      assert (b + t)[0] == b[0] && (b + t)[1..] == b[1..] + t;
      assert Blank(b[1..]) by {
        forall i | 0 <= i < |b[1..]|
          ensures IsSpace(b[1..][i])
        {
          assert b[1..][i] == b[i + 1];
        }
      }
      TrimStartAfterBlank(b[1..], t);
    }
  }

  /**
   * A maximal run of white space, however long, becomes a single `-`: this
   * is the `+` of `/\s+/g`. It holds at the start and at the end of the
   * string too (`t` empty).
   */
  lemma CollapseSpacesRun(r: string, t: string)
    requires r != [] && Blank(r)
    requires t == [] || !IsSpace(t[0])
    ensures CollapseSpaces(r + t) == "-" + CollapseSpaces(t)
  {
    assert (r + t)[0] == r[0] && (r + t)[1..] == r[1..] + t;
    assert Blank(r[1..]) by {
      forall i | 0 <= i < |r[1..]|
        ensures IsSpace(r[1..][i])
      {
        assert r[1..][i] == r[i + 1];
      }
    }
    TrimStartAfterBlank(r[1..], t);
  }

  /**
   * Words joined by one white-space character collapse to the same words
   * joined by `-`.
   */
  lemma {:induction false} CollapseSpacesOfJoin(ws: seq<string>, sep: char)
    requires IsSpace(sep)
    requires forall i :: 0 <= i < |ws| ==> ws[i] != [] && NoSpace(ws[i])
    ensures CollapseSpaces(JoinWith(ws, sep)) == JoinWith(ws, '-')
    decreases |ws|
  {
    if |ws| == 1 {
      CollapseSpacesOfSpaceless(ws[0]);
    } else if |ws| >= 2 {
      var rest := JoinWith(ws[1..], sep);
      assert rest[0] == ws[1][0];
      assert JoinWith(ws, sep) == ws[0] + ([sep] + rest);
      CollapseSpacesAfterWord(ws[0], [sep] + rest);
      assert ([sep] + rest)[1..] == rest;
      CollapseSpacesOfJoin(ws[1..], sep);
    }
  }

  lemma {:induction false} CollapseSpacesOfSpaceless(s: string)
    requires NoSpace(s)
    ensures CollapseSpaces(s) == s
    decreases |s|
  {
    if s != [] {
      CollapseSpacesOfSpaceless(s[1..]);
      assert [s[0]] + s[1..] == s;
    }
  }

  // ---------------------------------------------------------------------------
  // Integers in decimal
  // ---------------------------------------------------------------------------

  /** The result of `parseInt`: an integer, or `NaN` when no digit was found. */
  datatype ParsedInt = Int(value: int) | NaN

  /** `parseInt(s) || 0` */
  function OrZero(p: ParsedInt): int {
    match p
    case Int(n) => n
    case NaN => 0
  }

  predicate IsDigit(c: char) { '0' <= c <= '9' }

  predicate AllDigits(s: string) {
    forall i :: 0 <= i < |s| ==> IsDigit(s[i])
  }

  function DigitValue(c: char): nat
    requires IsDigit(c)
  {
    c as int - '0' as int
  }

  function DigitChar(d: nat): (c: char)
    requires d < 10
    ensures IsDigit(c) && DigitValue(c) == d
  {
    ('0' as int + d) as char
  }

  function NatToString(n: nat): (s: string)
    ensures s != [] && AllDigits(s)
    decreases n
  {
    if n < 10 then [DigitChar(n)] else NatToString(n / 10) + [DigitChar(n % 10)]
  }

  /** `String(n)` for an integer, as a template literal renders it. */
  function IntToString(n: int): string {
    if n < 0 then "-" + NatToString(-n) else NatToString(n)
  }

  /** The longest prefix of `s` made of decimal digits. */
  function DigitPrefix(s: string): (d: string)
    ensures |d| <= |s| && d == s[..|d|] && AllDigits(d)
    ensures |d| < |s| ==> !IsDigit(s[|d|])
  {
    if s == [] || !IsDigit(s[0]) then [] else [s[0]] + DigitPrefix(s[1..])
  }

  function DigitsValue(d: string): nat
    requires AllDigits(d)
  {
    if d == [] then 0 else DigitsValue(d[..|d| - 1]) * 10 + DigitValue(d[|d| - 1])
  }

  /**
   * `parseInt(s)` with the default radix: leading white space is skipped, one
   * sign is read, then the longest run of decimal digits; no digit gives `NaN`.
   */
  function ParseInt(s: string): ParsedInt {
    var t := TrimStart(s);
    var negative := t != [] && t[0] == '-';
    var unsigned := if t != [] && (t[0] == '-' || t[0] == '+') then t[1..] else t;
    var digits := DigitPrefix(unsigned);
    var magnitude: int := DigitsValue(digits);
    if digits == [] then NaN else Int(if negative then -magnitude else magnitude)
  }

  lemma {:induction false} DigitsValueOfNatToString(n: nat)
    ensures DigitsValue(NatToString(n)) == n
    decreases n
  {
    var s := NatToString(n);
    if n >= 10 {
      DigitsValueOfNatToString(n / 10);
      assert s[..|s| - 1] == NatToString(n / 10);
    }
  }

  lemma DigitPrefixOfDigits(s: string)
    requires AllDigits(s)
    ensures DigitPrefix(s) == s
  {
  }

  /** Reading back the decimal rendering of an integer gives the integer. */
  lemma ParseIntOfIntToString(n: int)
    ensures ParseInt(IntToString(n)) == Int(n)
  {
    var m: nat := if n < 0 then -n else n;
    var digits := NatToString(m);
    DigitsValueOfNatToString(m);
    DigitPrefixOfDigits(digits);
    if n < 0 {
      var s := "-" + digits;
      assert s[0] == '-' && !IsSpace(s[0]);
      assert TrimStart(s) == s;
      assert s[1..] == digits;
    } else {
      assert IsDigit(digits[0]) && !IsSpace(digits[0]);
      assert TrimStart(digits) == digits;
    }
  }

  // ---------------------------------------------------------------------------
  // Arrays
  // ---------------------------------------------------------------------------

  /** `s.filter(keep)` */
  function Filter<T>(s: seq<T>, keep: T -> bool): (r: seq<T>)
    ensures |r| <= |s|
    ensures forall i :: 0 <= i < |r| ==> r[i] in s && keep(r[i])
    ensures forall i :: 0 <= i < |s| && keep(s[i]) ==> s[i] in r
  {
    if s == [] then []
    else
      if keep(s[0]) then [s[0]] + Filter(s[1..], keep) else Filter(s[1..], keep)
  }

  /** Filtering keeps the order: the kept elements of a concatenation are the kept elements of each part. */
  lemma {:induction false} FilterAppend<T>(a: seq<T>, b: seq<T>, keep: T -> bool)
    ensures Filter(a + b, keep) == Filter(a, keep) + Filter(b, keep)
    decreases |a|
  {
    if a == [] {
      assert a + b == b;
    } else {
      assert (a + b)[0] == a[0];
      assert (a + b)[1..] == a[1..] + b;
      FilterAppend(a[1..], b, keep);
    }
  }

  /** Two filters that agree on every element keep the same elements. */
  lemma {:induction false} FilterCongruent<T>(s: seq<T>, f: T -> bool, g: T -> bool)
    requires forall i :: 0 <= i < |s| ==> f(s[i]) == g(s[i])
    ensures Filter(s, f) == Filter(s, g)
    decreases |s|
  {
    if s != [] {
      FilterCongruent(s[1..], f, g);
    }
  }

  /**
   * `s.slice(-count)`: for a positive count, the last `count` elements (all of
   * them when there are fewer); `slice(-0)` is `slice(0)`, the whole sequence;
   * a negative count drops the first `-count` elements.
   */
  function SliceFromEnd<T>(s: seq<T>, count: int): (r: seq<T>)
    ensures count >= 1 ==> |r| == Min(count, |s|) && r == s[|s| - |r|..]
    ensures count == 0 ==> r == s
    ensures count < 0 ==> r == s[Min(-count, |s|)..]
  {
    var start := -count;
    var from := if start < 0 then Max(|s| + start, 0) else Min(start, |s|);
    s[from..]
  }

  /**
   * A `for (const id of ids)` loop that sets one entry of a map per id (as in
   * `initializeStatuses`, `getAllProjectsStatus` and the log manager's
   * `initialize`): each id's entry is computed and written both to the map and
   * to the result; a repeated id is written again with the same value.
   */
  method RefreshEach<S>(ids: seq<string>, cache: map<string, S>, compute: string -> S)
    returns (updated: map<string, S>, computed: map<string, S>)
    ensures forall id :: id in computed <==> id in ids
    ensures forall id :: id in computed ==> computed[id] == compute(id)
    ensures updated == cache + computed
  {
    updated, computed := cache, map[];
    for i := 0 to |ids|
      invariant forall id :: id in computed <==> id in ids[..i]
      invariant forall id :: id in computed ==> computed[id] == compute(id)
      invariant updated == cache + computed
    {
      assert ids[..i + 1] == ids[..i] + [ids[i]];
      updated := updated[ids[i] := compute(ids[i])];
      computed := computed[ids[i] := compute(ids[i])];
    }
    assert ids[..|ids|] == ids;
  }

  /** Entries of a map whose keys the second map all has are overwritten by the union. */
  lemma UnionWithCovering<K, V>(m: map<K, V>, n: map<K, V>)
    requires m.Keys <= n.Keys
    ensures m + n == n
  {
  }
}
