/** The JavaScript string operations the renderer and the two handlers rely
    on, each stated against an independent description of what it computes:
    `trim`, `startsWith`, `includes`, `split` with a string separator,
    `Array.prototype.join`, and `replace` of a literal pattern with the `g` flag. */
module Text {

  /** The characters `String.prototype.trim` and the regex class `\s` treat
      as whitespace, restricted to ASCII: space, tab, line feed, vertical tab,
      form feed and carriage return. */
  predicate IsSpace(c: char) {
    c == ' ' || c == '\t' || c == '\n' || c == '\U{000B}' || c == '\U{000C}' || c == '\r'
  }

  /** The regex class `\d`: an ASCII decimal digit. */
  predicate IsDigit(c: char) {
    '0' <= c <= '9'
  }

  predicate AllSpace(s: string) {
    forall i | 0 <= i < |s| :: IsSpace(s[i])
  }

  /** `s.startsWith(p)`. */
  predicate StartsWith(s: string, p: string) {
    |p| <= |s| && s[..|p|] == p
  }

  /** `p` occurs in `s` at index `i`. */
  predicate OccursAt(s: string, p: string, i: int) {
    0 <= i && i + |p| <= |s| && s[i..i + |p|] == p
  }

  ghost predicate Occurs(s: string, p: string) {
    exists i :: OccursAt(s, p, i)
  }

  /** Number of occurrences of the character `c` in `s`. */
  function CountChar(s: string, c: char): nat {
    if s == [] then 0 else (if s[0] == c then 1 else 0) + CountChar(s[1..], c)
  }

  // ---------------------------------------------------------------------
  // trim

  /** `s.trimStart()`. */
  function TrimStart(s: string): string {
    if |s| > 0 && IsSpace(s[0]) then TrimStart(s[1..]) else s
  }

  /** `s.trimEnd()`. */
  function TrimEnd(s: string): string {
    if |s| > 0 && IsSpace(s[|s| - 1]) then TrimEnd(s[..|s| - 1]) else s
  }

  /** `s.trim()`. */
  function Trim(s: string): string {
    TrimEnd(TrimStart(s))
  }

  /** `trimStart` leaves the suffix that follows the leading whitespace. */
  lemma {:induction false} TrimStartSpec(s: string)
    ensures var r := TrimStart(s);
      && |r| <= |s| && r == s[|s| - |r|..]
      && AllSpace(s[..|s| - |r|])
      && (r == [] || !IsSpace(r[0]))
  {
    if |s| > 0 && IsSpace(s[0]) {
      TrimStartSpec(s[1..]);
      var r := TrimStart(s[1..]);
      assert s[..|s| - |r|] == [s[0]] + s[1..][..|s| - 1 - |r|];
    }
  }

  /** `trimEnd` leaves the prefix that precedes the trailing whitespace. */
  lemma {:induction false} TrimEndSpec(s: string)
    ensures var r := TrimEnd(s);
      && |r| <= |s| && r == s[..|r|]
      && AllSpace(s[|r|..])
      && (r == [] || !IsSpace(r[|r| - 1]))
  {
    if |s| > 0 && IsSpace(s[|s| - 1]) {
      TrimEndSpec(s[..|s| - 1]);
      var r := TrimEnd(s[..|s| - 1]);
      assert s[|r|..] == s[..|s| - 1][|r|..] + [s[|s| - 1]];
    }
  }

  /** `trim` keeps the stretch of `s` between its leading and its trailing
      whitespace: the result is an infix of `s` with only whitespace before
      and after it, empty exactly for all-whitespace strings, and otherwise
      neither starting nor ending with whitespace. When `s` does not start
      with whitespace nothing is dropped from its front. */
  lemma TrimSpec(s: string)
    ensures var r := Trim(s);
      && |r| <= |s|
      && (exists i | 0 <= i <= |s| - |r| :: r == s[i..i + |r|] && AllSpace(s[..i]) && AllSpace(s[i + |r|..]))
      && (r == [] <==> AllSpace(s))
      && (r != [] ==> !IsSpace(r[0]) && !IsSpace(r[|r| - 1]))
      && (|s| > 0 && !IsSpace(s[0]) ==> r == s[..|r|] && AllSpace(s[|r|..]))
  {
    var t := TrimStart(s);
    var r := TrimEnd(t);
    TrimStartSpec(s);
    TrimEndSpec(t);
    var i := |s| - |t|;
    assert r == s[i..i + |r|];
    assert s[i + |r|..] == t[|r|..];
    if t != [] {
      assert t[0] == s[|s| - |t|];
    }
    if r == [] {
      assert t == [];
      forall i | 0 <= i < |s| ensures IsSpace(s[i]) {
        assert s[i] == s[..|s| - |t|][i];
      }
    }
    if |s| > 0 && !IsSpace(s[0]) {
      assert t == s;
    }
  }

  /** `trim` of a string that does not start with whitespace is a prefix of
      it followed only by whitespace. */
  lemma TrimKeepsFront(s: string)
    requires |s| > 0 && !IsSpace(s[0])
    ensures |Trim(s)| <= |s| && Trim(s) == s[..|Trim(s)|] && AllSpace(s[|Trim(s)|..])
  {
    assert TrimStart(s) == s;
    TrimEndSpec(s);
  }

  /** `trim` empties exactly the all-whitespace strings. */
  lemma TrimEmpty(s: string)
    ensures Trim(s) == [] <==> AllSpace(s)
  {
    TrimSpec(s);
  }

  /** Leading whitespace does not change what `trimStart` leaves. */
  lemma {:induction false} TrimStartLeadingSpace(w: string, s: string)
    requires AllSpace(w)
    ensures TrimStart(w + s) == TrimStart(s)
    decreases |w|
  {
    if w != [] {
      var ws := w + s;
      assert ws[0] == w[0];
      assert IsSpace(ws[0]);
      assert TrimStart(ws) == TrimStart(ws[1..]);
      assert ws[1..] == w[1..] + s;
      assert AllSpace(w[1..]);
      TrimStartLeadingSpace(w[1..], s);
    } else {
      assert w + s == s;
    }
  }

  /** Leading whitespace does not change the trimmed form. */
  lemma TrimLeadingSpace(w: string, s: string)
    requires AllSpace(w)
    ensures Trim(w + s) == Trim(s)
  {
    TrimStartLeadingSpace(w, s);
  }

  // ---------------------------------------------------------------------
  // includes

  lemma NoRoom(s: string, p: string)
    requires |s| < |p|
    ensures !Occurs(s, p)
  {
  }

  /** Moving past a first character that does not start `p` loses no
      occurrence of `p`. */
  lemma ShiftOccurs(s: string, p: string)
    requires |s| > 0 && !StartsWith(s, p)
    ensures Occurs(s, p) <==> Occurs(s[1..], p)
  {
    if Occurs(s, p) {
      var i :| OccursAt(s, p, i);
      assert i != 0;
      assert s[1..][i - 1..i - 1 + |p|] == s[i..i + |p|];
      assert OccursAt(s[1..], p, i - 1);
    }
    if Occurs(s[1..], p) {
      var j :| OccursAt(s[1..], p, j);
      assert s[1..][j..j + |p|] == s[j + 1..j + 1 + |p|];
      assert OccursAt(s, p, j + 1);
    }
  }

  /** `s.includes(p)`. */
  function Includes(s: string, p: string): bool
    decreases |s|
  {
    if |s| < |p| then false
    else if s[..|p|] == p then true
    else Includes(s[1..], p)
  }

  /** `includes` finds an occurrence exactly when there is one. */
  lemma {:induction false} IncludesSpec(s: string, p: string)
    ensures Includes(s, p) <==> Occurs(s, p)
    decreases |s|
  {
    if |s| < |p| {
      NoRoom(s, p);
    } else if s[..|p|] == p {
      assert OccursAt(s, p, 0);
    } else {
      ShiftOccurs(s, p);
      IncludesSpec(s[1..], p);
    }
  }

  /** A one-character pattern occurs exactly where that character does. */
  lemma OccursChar(s: string, c: char)
    ensures Occurs(s, [c]) <==> c in s
  {
    if c in s {
      var i :| 0 <= i < |s| && s[i] == c;
      assert OccursAt(s, [c], i);
    }
    if Occurs(s, [c]) {
      var i :| OccursAt(s, [c], i);
      assert s[i] == s[i..i + 1][0] == c;
    }
  }

  // ---------------------------------------------------------------------
  // join and split

  /** `parts.join(sep)`. */
  function Join(parts: seq<string>, sep: string): string {
    if |parts| == 0 then []
    else if |parts| == 1 then parts[0]
    else parts[0] + sep + Join(parts[1..], sep)
  }

  /** `parts.join('')`. */
  function Concat(parts: seq<string>): string {
    Join(parts, [])
  }

  lemma JoinCons(x: string, parts: seq<string>, sep: string)
    requires |parts| >= 1
    ensures Join([x] + parts, sep) == x + sep + Join(parts, sep)
  {
    assert ([x] + parts)[1..] == parts;
  }

  /** Gluing `c` to the first part glues it to the front of the join. */
  lemma JoinExtendHead(c: string, parts: seq<string>, sep: string)
    requires |parts| >= 1
    ensures Join([c + parts[0]] + parts[1..], sep) == c + Join(parts, sep)
  {
    if |parts| > 1 {
      JoinCons(c + parts[0], parts[1..], sep);
    }
  }

  /** Joining a concatenation puts one separator between the two joins. */
  lemma {:induction false} JoinAppend(a: seq<string>, b: seq<string>, sep: string)
    requires |a| >= 1 && |b| >= 1
    ensures Join(a + b, sep) == Join(a, sep) + sep + Join(b, sep)
    decreases |a|
  {
    if |a| == 1 {
      JoinCons(a[0], b, sep);
    } else {
      JoinAppend(a[1..], b, sep);
      assert (a + b)[1..] == a[1..] + b;
      JoinCons(a[0], a[1..] + b, sep);
      JoinCons(a[0], a[1..], sep);
      assert a == [a[0]] + a[1..];
      assert a + b == [a[0]] + (a[1..] + b);
    }
  }

  /** The first part is a prefix of the join. */
  lemma JoinStartsWithHead(parts: seq<string>, sep: string)
    requires |parts| >= 1
    ensures StartsWith(Join(parts, sep), parts[0])
  {
  }

  /** `s.split(sep)` for a non-empty separator: the pieces of `s` between the
      occurrences of `sep` found scanning left to right without overlap.
      There is always at least one piece, and joining the pieces with `sep`
      gives back `s`. */
  function Split(s: string, sep: string): (parts: seq<string>)
    requires |sep| > 0
    ensures |parts| >= 1
    decreases |s|
  {
    if |s| < |sep| then [s]
    else if s[..|sep|] == sep then [[]] + Split(s[|sep|..], sep)
    else
      var rest := Split(s[1..], sep);
      [[s[0]] + rest[0]] + rest[1..]
  }

  /** Joining the pieces of a split with the separator gives the string back. */
  lemma {:induction false} SplitJoin(s: string, sep: string)
    requires |sep| > 0
    ensures Join(Split(s, sep), sep) == s
    decreases |s|
  {
    if |s| < |sep| {
    } else if s[..|sep|] == sep {
      var rest := Split(s[|sep|..], sep);
      assert Split(s, sep) == [[]] + rest;
      SplitJoin(s[|sep|..], sep);
      JoinCons([], rest, sep);
      assert s == sep + s[|sep|..];
    } else {
      var rest := Split(s[1..], sep);
      assert Split(s, sep) == [[s[0]] + rest[0]] + rest[1..];
      SplitJoin(s[1..], sep);
      JoinExtendHead([s[0]], rest, sep);
      assert s == [s[0]] + s[1..];
    }
  }

  /** No piece of a split contains the separator. */
  lemma {:induction false} SplitPiecesAvoidSep(s: string, sep: string)
    requires |sep| > 0
    ensures forall k | 0 <= k < |Split(s, sep)| :: !Occurs(Split(s, sep)[k], sep)
    decreases |s|
  {
    var parts := Split(s, sep);
    if |s| < |sep| {
      NoRoom(s, sep);
    } else if s[..|sep|] == sep {
      SplitPiecesAvoidSep(s[|sep|..], sep);
      var rest := Split(s[|sep|..], sep);
      assert parts == [[]] + rest;
      NoRoom([], sep);
      forall k | 0 <= k < |parts| ensures !Occurs(parts[k], sep) {
        if k > 0 { assert parts[k] == rest[k - 1]; }
      }
    } else {
      SplitPiecesAvoidSep(s[1..], sep);
      SplitJoin(s[1..], sep);
      var rest := Split(s[1..], sep);
      var head := [s[0]] + rest[0];
      assert parts == [head] + rest[1..];
      JoinStartsWithHead(rest, sep);
      assert StartsWith(s, head) by {
        assert s == [s[0]] + Join(rest, sep);
      }
      assert !StartsWith(head, sep);
      ShiftOccurs(head, sep);
      assert head[1..] == rest[0];
      forall k | 0 <= k < |parts| ensures !Occurs(parts[k], sep) {
        if k > 0 { assert parts[k] == rest[k]; }
      }
    }
  }

  /** No occurrence of `sep` starts inside `piece`, not even one that runs
      into a `sep` placed right after it. */
  ghost predicate NoEarlierCut(piece: string, sep: string)
    requires |sep| > 0
  {
    !Occurs(piece + sep[..|sep| - 1], sep)
  }

  /** Split cuts at the leftmost occurrence each time: no occurrence of the
      separator starts inside a piece that is followed by a cut. */
  lemma {:induction false} SplitLeftmost(s: string, sep: string)
    requires |sep| > 0
    ensures forall k | 0 <= k < |Split(s, sep)| - 1 :: NoEarlierCut(Split(s, sep)[k], sep)
    decreases |s|
  {
    var parts := Split(s, sep);
    var sp := sep[..|sep| - 1];
    if |s| < |sep| {
    } else if s[..|sep|] == sep {
      var rest := Split(s[|sep|..], sep);
      assert parts == [[]] + rest;
      SplitLeftmost(s[|sep|..], sep);
      forall k | 0 <= k < |parts| - 1 ensures NoEarlierCut(parts[k], sep) {
        if k == 0 {
          assert parts[k] + sp == sp;
          NoRoom(sp, sep);
        } else {
          assert parts[k] == rest[k - 1];
        }
      }
    } else {
      var rest := Split(s[1..], sep);
      assert parts == [[s[0]] + rest[0]] + rest[1..];
      SplitLeftmost(s[1..], sep);
      forall k | 0 <= k < |parts| - 1 ensures NoEarlierCut(parts[k], sep) {
        if k == 0 {
          assert NoEarlierCut(rest[0], sep);
          FirstPieceLeftmost(s, sep, rest);
          assert parts[0] + sp == [s[0]] + (rest[0] + sp);
        } else {
          assert parts[k] == rest[k];
        }
      }
    }
  }

  /** Before the first cut, a split's first piece and all but the last
      character of the separator are a prefix of the string. */
  lemma FirstPiecePrefix(s: string, sep: string)
    requires |sep| > 0 && |Split(s, sep)| > 1
    ensures StartsWith(s, Split(s, sep)[0] + sep[..|sep| - 1])
  {
    var parts := Split(s, sep);
    SplitJoin(s, sep);
    JoinCons(parts[0], parts[1..], sep);
    assert [parts[0]] + parts[1..] == parts;
    assert s == parts[0] + sep + Join(parts[1..], sep);
    assert s[..|parts[0]| + |sep| - 1] == parts[0] + sep[..|sep| - 1];
  }

  /** An occurrence in `[c] + u` away from the front is an occurrence in `u`. */
  lemma OccursAfterHead(c: char, u: string, p: string)
    requires Occurs([c] + u, p) && !OccursAt([c] + u, p, 0)
    ensures Occurs(u, p)
  {
    var t := [c] + u;
    var i :| OccursAt(t, p, i);
    assert t[i..i + |p|] == u[i - 1..i - 1 + |p|];
    assert OccursAt(u, p, i - 1);
  }

  /** The step of `SplitLeftmost` for a first piece that grew by `s[0]`. */
  lemma FirstPieceLeftmost(s: string, sep: string, rest: seq<string>)
    requires |sep| > 0 && |s| >= |sep| && s[..|sep|] != sep
    requires rest == Split(s[1..], sep) && |rest| > 1
    requires !Occurs(rest[0] + sep[..|sep| - 1], sep)
    ensures !Occurs([s[0]] + (rest[0] + sep[..|sep| - 1]), sep)
  {
    var u := rest[0] + sep[..|sep| - 1];
    FirstPiecePrefix(s[1..], sep);
    PrefixCons(s, u);
    NotAtFront(s, [s[0]] + u, sep);
    if Occurs([s[0]] + u, sep) {
      OccursAfterHead(s[0], u, sep);
    }
  }

  /** A prefix of `s[1..]` with `s[0]` put back is a prefix of `s`. */
  lemma PrefixCons(s: string, u: string)
    requires |s| > 0 && StartsWith(s[1..], u)
    ensures StartsWith(s, [s[0]] + u)
  {
    assert s[..|u| + 1] == [s[0]] + s[1..][..|u|];
  }

  /** A prefix of `s` at least as long as `p` starts with `p` only if `s`
      does. */
  lemma NotAtFront(s: string, t: string, p: string)
    requires StartsWith(s, t) && |p| <= |t| && !StartsWith(s, p)
    ensures !OccursAt(t, p, 0)
  {
    assert t[..|p|] == s[..|p|];
  }

  /** A string in which the separator's first character never appears
      splits into itself alone. */
  lemma {:induction false} SplitNoSep(x: string, sep: string)
    requires |sep| > 0 && sep[0] !in x
    ensures Split(x, sep) == [x]
    decreases |x|
  {
    if |x| >= |sep| {
      assert x[..|sep|][0] == x[0];
      SplitNoSep(x[1..], sep);
      assert [x[0]] + x[1..] == x;
    }
  }

  /** After a prefix `x` in which the separator's first character never
      appears, the first cut comes right after `x`. */
  lemma {:induction false} SplitAfterPrefix(x: string, sep: string, rest: string)
    requires |sep| > 0 && sep[0] !in x
    ensures Split(x + sep + rest, sep) == [x] + Split(rest, sep)
    decreases |x|
  {
    var s := x + sep + rest;
    if x == [] {
      assert s[..|sep|] == sep;
      assert s[|sep|..] == rest;
    } else {
      assert s[..|sep|][0] == x[0];
      assert s[1..] == x[1..] + sep + rest;
      SplitAfterPrefix(x[1..], sep, rest);
      assert [x[0]] + x[1..] == x;
    }
  }

  /** Splitting on a character undoes joining with it, when no part holds it. */
  lemma {:induction false} SplitJoinChar(parts: seq<string>, c: char)
    requires |parts| >= 1
    requires forall k | 0 <= k < |parts| :: c !in parts[k]
    ensures Split(Join(parts, [c]), [c]) == parts
    decreases |parts|
  {
    if |parts| == 1 {
      SplitNoSep(parts[0], [c]);
    } else {
      SplitJoinChar(parts[1..], c);
      SplitAfterPrefix(parts[0], [c], Join(parts[1..], [c]));
      assert [parts[0]] + parts[1..] == parts;
    }
  }

  /** Splitting on a character gives one more piece than it has occurrences. */
  lemma {:induction false} SplitCharCount(s: string, c: char)
    ensures |Split(s, [c])| == CountChar(s, c) + 1
    decreases |s|
  {
    if s != [] {
      SplitCharCount(s[1..], c);
      if s[0] == c {
        assert s[..1] == [c];
      } else {
        assert s[..1] != [c];
      }
    }
  }

  /** Splitting on `c` at an occurrence of `c` splits the two sides apart. */
  lemma SplitCharAppend(x: string, y: string, c: char)
    ensures Split(x + [c] + y, [c]) == Split(x, [c]) + Split(y, [c])
  {
    var p := Split(x, [c]);
    var q := Split(y, [c]);
    SplitPiecesAvoidSep(x, [c]);
    SplitPiecesAvoidSep(y, [c]);
    forall k | 0 <= k < |p + q| ensures c !in (p + q)[k] {
      if k < |p| {
        OccursChar(p[k], c);
      } else {
        OccursChar(q[k - |p|], c);
      }
    }
    JoinAppend(p, q, [c]);
    SplitJoin(x, [c]);
    SplitJoin(y, [c]);
    SplitJoinChar(p + q, c);
  }

  // ---------------------------------------------------------------------
  // replace(/p/g, '')

  /** `s.replace(/p/g, '')` for a pattern `p` with no regex metacharacters:
      every occurrence found scanning left to right without overlap is
      deleted, and nothing else is. */
  function RemoveAll(s: string, p: string): (r: string)
    requires |p| > 0
    ensures |r| <= |s|
    ensures StartsWith(s, p) ==> |r| <= |s| - |p|
    decreases |s|
  {
    if |s| < |p| then s
    else if s[..|p|] == p then RemoveAll(s[|p|..], p)
    else [s[0]] + RemoveAll(s[1..], p)
  }

  /** Deleting every occurrence is the same as `s.split(p).join('')`. */
  lemma {:induction false} RemoveAllIsSplitConcat(s: string, p: string)
    requires |p| > 0
    ensures RemoveAll(s, p) == Concat(Split(s, p))
    decreases |s|
  {
    if |s| < |p| {
    } else if s[..|p|] == p {
      RemoveAllIsSplitConcat(s[|p|..], p);
      JoinCons([], Split(s[|p|..], p), []);
    } else {
      RemoveAllIsSplitConcat(s[1..], p);
      JoinExtendHead([s[0]], Split(s[1..], p), []);
    }
  }

  /** A string without the pattern is left as it is. */
  lemma {:induction false} RemoveAllAbsent(s: string, p: string)
    requires |p| > 0 && !Occurs(s, p)
    ensures RemoveAll(s, p) == s
    decreases |s|
  {
    if |s| >= |p| {
      assert !OccursAt(s, p, 0);
      ShiftOccurs(s, p);
      RemoveAllAbsent(s[1..], p);
      assert [s[0]] + s[1..] == s;
    }
  }
}
