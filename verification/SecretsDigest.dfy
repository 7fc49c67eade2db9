/**
  The fingerprint of the stored values this service reads (`src/appSecrets/digest.js`):
  its own rows as lines, sorted, joined and hashed. It tells exactly which multisets
  of own rows are the same, although the lines are joined by a character the values
  may contain.
*/
module SecretsDigest {
  datatype SecretRow = SecretRow(scope: string, name: string, ciphertext: string)

  const SCOPES := ["both", "samsara"]

  const NUL := '\0'

  predicate IsOwn(row: SecretRow) {
    row.scope in SCOPES
  }

  function Own(rows: seq<SecretRow>): (own: seq<SecretRow>)
    ensures forall row :: row in own <==> row in rows && IsOwn(row)
    ensures forall i :: 0 <= i < |own| ==> IsOwn(own[i])
  {
    if rows == [] then []
    else (if IsOwn(rows[0]) then [rows[0]] else []) + Own(rows[1..])
  }

  function Line(row: SecretRow): string {
    row.scope + [NUL] + row.name + [NUL] + row.ciphertext
  }

  function Lines(rows: seq<SecretRow>): (lines: seq<string>)
    ensures |lines| == |rows| && forall i :: 0 <= i < |lines| ==> lines[i] == Line(rows[i])
  {
    if rows == [] then [] else [Line(rows[0])] + Lines(rows[1..])
  }

  /** `a` comes before `b` or is the same. */
  predicate Leq(a: string, b: string) {
    a == "" || (b != "" && (a[0] < b[0] || (a[0] == b[0] && Leq(a[1..], b[1..]))))
  }

  function Insert(line: string, sorted: seq<string>): seq<string> {
    if sorted == [] || Leq(line, sorted[0]) then [line] + sorted
    else [sorted[0]] + Insert(line, sorted[1..])
  }

  function Sort(lines: seq<string>): seq<string> {
    if lines == [] then [] else Insert(lines[0], Sort(lines[1..]))
  }

  /** `lines.join('\n')` */
  function Join(lines: seq<string>): string {
    if lines == [] then ""
    else if |lines| == 1 then lines[0]
    else Join(lines[..|lines| - 1]) + ['\n'] + lines[|lines| - 1]
  }

  function DigestRows(rows: seq<SecretRow>, hash: string -> string): string {
    hash(Join(Sort(Lines(Own(rows)))))
  }

  // ---- Sorting is a canonical form -----------------------------------------------------

  lemma {:induction false} LeqTotal(a: string, b: string)
    ensures Leq(a, b) || Leq(b, a)
    ensures Leq(a, b) && Leq(b, a) ==> a == b
  {
    if a != "" && b != "" && a[0] == b[0] {
      LeqTotal(a[1..], b[1..]);
      assert a == [a[0]] + a[1..] && b == [b[0]] + b[1..];
    }
  }

  lemma {:induction false} LeqTransitive(a: string, b: string, c: string)
    requires Leq(a, b) && Leq(b, c)
    ensures Leq(a, c)
  {
    if a != "" && a[0] == b[0] && b[0] == c[0] {
      LeqTransitive(a[1..], b[1..], c[1..]);
    }
  }

  ghost predicate Sorted(lines: seq<string>) {
    forall i, j :: 0 <= i < j < |lines| ==> Leq(lines[i], lines[j])
  }

  lemma {:induction false} InsertSorts(line: string, sorted: seq<string>)
    requires Sorted(sorted)
    ensures Sorted(Insert(line, sorted))
    ensures multiset(Insert(line, sorted)) == multiset{line} + multiset(sorted)
  {
    if sorted == [] {
    } else if Leq(line, sorted[0]) {
      forall j | 0 <= j < |sorted|
        ensures Leq(line, sorted[j])
      {
        if j > 0 {
          LeqTransitive(line, sorted[0], sorted[j]);
        }
      }
    } else {
      LeqTotal(line, sorted[0]);
      InsertSorts(line, sorted[1..]);
      assert sorted == [sorted[0]] + sorted[1..];
      forall x | x in Insert(line, sorted[1..])
        ensures Leq(sorted[0], x)
      {
        assert x in multiset(Insert(line, sorted[1..]));
      }
    }
  }

  lemma {:induction false} SortSorts(lines: seq<string>)
    ensures Sorted(Sort(lines)) && multiset(Sort(lines)) == multiset(lines)
  {
    if lines != [] {
      SortSorts(lines[1..]);
      InsertSorts(lines[0], Sort(lines[1..]));
      assert lines == [lines[0]] + lines[1..];
    }
  }

  lemma SplitFirst<T>(s: seq<T>, x: T)
    requires s != []
    ensures s == [s[0]] + s[1..]
    ensures multiset(s) == multiset{s[0]} + multiset(s[1..])
    ensures multiset(s)[x] == (if x == s[0] then 1 else 0) + multiset(s[1..])[x]
  {
    assert s == [s[0]] + s[1..];
  }

  lemma FirstIsLeast(a: seq<string>, x: string)
    requires Sorted(a) && a != [] && x in multiset(a)
    ensures Leq(a[0], x)
  {
    var i :| 0 <= i < |a| && a[i] == x;
    LeqTotal(x, x);
  }

  lemma SameLeast(a: seq<string>, b: seq<string>)
    requires Sorted(a) && Sorted(b) && multiset(a) == multiset(b) && a != [] && b != []
    ensures a[0] == b[0] && multiset(a[1..]) == multiset(b[1..])
  {
    assert a[0] in multiset(b) && b[0] in multiset(a);
    FirstIsLeast(a, b[0]);
    FirstIsLeast(b, a[0]);
    LeqTotal(a[0], b[0]);
    SplitFirst(a, a[0]);
    SplitFirst(b, b[0]);
    assert multiset(a[1..]) == multiset(a) - multiset{a[0]};
    assert multiset(b[1..]) == multiset(b) - multiset{b[0]};
  }

  lemma {:induction false} SortedIsUnique(a: seq<string>, b: seq<string>)
    requires Sorted(a) && Sorted(b) && multiset(a) == multiset(b)
    ensures a == b
  {
    assert |a| == |multiset(a)| == |multiset(b)| == |b|;
    if a != [] {
      SameLeast(a, b);
      SortedIsUnique(a[1..], b[1..]);
      SplitFirst(a, a[0]);
      SplitFirst(b, b[0]);
    }
  }

  // ---- Joining loses nothing ---------------------------------------------------------------

  lemma LastAt(a: string, x: string, c: char)
    requires c !in x
    ensures var s := a + [c] + x;
      && s[|a|] == c && s[..|a|] == a && s[|a| + 1..] == x
      && (forall k :: |a| < k < |s| ==> s[k] != c)
  {
    var s := a + [c] + x;
    forall k | |a| < k < |s|
      ensures s[k] != c
    {
      assert s[k] == x[k - |a| - 1];
    }
  }

  /** A text is split at its last separator in one way only. */
  lemma LastSplit(a: string, x: string, b: string, y: string, c: char)
    requires c !in x && c !in y && a + [c] + x == b + [c] + y
    ensures a == b && x == y
  {
    LastAt(a, x, c);
    LastAt(b, y, c);
    assert |a| == |b|;
  }

  /** An own row whose fields hold no NUL: the scope then holds no newline either. */
  ghost predicate WellFormed(row: SecretRow) {
    IsOwn(row) && NUL !in row.name && NUL !in row.ciphertext
  }

  ghost predicate AllWellFormed(rows: seq<SecretRow>) {
    forall row :: row in rows ==> WellFormed(row)
  }

  lemma ScopesAreClean(scope: string)
    requires scope in SCOPES
    ensures '\n' !in scope && NUL !in scope
  {}

  /** The name and the ciphertext of the last line can be read off. */
  lemma EndReadsBack(p: string, r: SecretRow, q: string, s: SecretRow)
    requires WellFormed(r) && WellFormed(s) && p + Line(r) == q + Line(s)
    ensures p + r.scope == q + s.scope && r.name == s.name && r.ciphertext == s.ciphertext
  {
    assert p + Line(r) == (p + r.scope + [NUL] + r.name) + [NUL] + r.ciphertext;
    assert q + Line(s) == (q + s.scope + [NUL] + s.name) + [NUL] + s.ciphertext;
    LastSplit(p + r.scope + [NUL] + r.name, r.ciphertext, q + s.scope + [NUL] + s.name, s.ciphertext, NUL);
    LastSplit(p + r.scope, r.name, q + s.scope, s.name, NUL);
  }

  lemma LineIsInjective(r: SecretRow, s: SecretRow)
    requires WellFormed(r) && WellFormed(s) && Line(r) == Line(s)
    ensures r == s
  {
    assert "" + Line(r) == "" + Line(s);
    EndReadsBack("", r, "", s);
    assert "" + r.scope == r.scope && "" + s.scope == s.scope;
  }

  /** What precedes the last line: nothing, or the lines before it and a newline. */
  function Before(rows: seq<SecretRow>): string
    requires rows != []
  {
    if |rows| == 1 then "" else Join(Lines(rows[..|rows| - 1])) + ['\n']
  }

  lemma LinesOfInit(rows: seq<SecretRow>)
    requires rows != []
    ensures Lines(rows)[..|rows| - 1] == Lines(rows[..|rows| - 1])
  {}

  lemma JoinAtTheEnd(rows: seq<SecretRow>)
    requires rows != []
    ensures Join(Lines(rows)) == Before(rows) + Line(rows[|rows| - 1])
  {
    var lines, last := Lines(rows), |rows| - 1;
    LinesOfInit(rows);
    if |rows| > 1 {
      assert Join(lines) == Join(lines[..last]) + ['\n'] + lines[last];
    } else {
      assert "" + Line(rows[0]) == Line(rows[0]);
    }
  }

  lemma ManyHoldANewline(rows: seq<SecretRow>, scope: string)
    requires |rows| > 1
    ensures '\n' in Before(rows) + scope
  {
    assert (Before(rows) + scope)[|Before(rows)| - 1] == '\n';
  }

  /** The scope of the last line can be read off: what precedes it ends in a newline, if it is anything. */
  lemma ScopeReadsBack(a: seq<SecretRow>, b: seq<SecretRow>, scope: string, other: string)
    requires a != [] && b != [] && scope in SCOPES && other in SCOPES
    requires Before(a) + scope == Before(b) + other
    ensures scope == other && (|a| == 1 <==> |b| == 1) && Before(a) == Before(b)
  {
    ScopesAreClean(scope);
    ScopesAreClean(other);
    if |a| > 1 {
      ManyHoldANewline(a, scope);
    }
    if |b| > 1 {
      ManyHoldANewline(b, other);
    }
    assert "" + scope == scope && "" + other == other;
    if |a| > 1 && |b| > 1 {
      LastSplit(Join(Lines(a[..|a| - 1])), scope, Join(Lines(b[..|b| - 1])), other, '\n');
    }
  }

  /** The last rows are the same, and so is what precedes them. */
  lemma LastRowsAgree(a: seq<SecretRow>, b: seq<SecretRow>)
    requires a != [] && b != [] && AllWellFormed(a) && AllWellFormed(b) && Join(Lines(a)) == Join(Lines(b))
    ensures a[|a| - 1] == b[|b| - 1] && (|a| == 1 <==> |b| == 1)
    ensures Before(a) == Before(b)
  {
    var r, s := a[|a| - 1], b[|b| - 1];
    JoinAtTheEnd(a);
    JoinAtTheEnd(b);
    EndReadsBack(Before(a), r, Before(b), s);
    ScopeReadsBack(a, b, r.scope, s.scope);
  }

  lemma LastButNewline(p: string, q: string)
    requires p + ['\n'] == q + ['\n']
    ensures p == q
  {
    assert p == (p + ['\n'])[..|p|] && q == (q + ['\n'])[..|q|];
  }

  lemma JoinIsNothing(rows: seq<SecretRow>)
    ensures Join(Lines(rows)) == "" <==> rows == []
  {
    if rows != [] {
      JoinAtTheEnd(rows);
    }
  }

  lemma InitsJoinAlike(a: seq<SecretRow>, b: seq<SecretRow>)
    requires |a| > 1 && |b| > 1 && Before(a) == Before(b)
    ensures Join(Lines(a[..|a| - 1])) == Join(Lines(b[..|b| - 1]))
  {
    LastButNewline(Join(Lines(a[..|a| - 1])), Join(Lines(b[..|b| - 1])));
  }

  lemma SameEnds(a: seq<SecretRow>, b: seq<SecretRow>)
    requires a != [] && b != [] && a[..|a| - 1] == b[..|b| - 1] && a[|a| - 1] == b[|b| - 1]
    ensures a == b
  {
    assert a == a[..|a| - 1] + [a[|a| - 1]] && b == b[..|b| - 1] + [b[|b| - 1]];
  }

  lemma {:induction false} JoinIsInjective(a: seq<SecretRow>, b: seq<SecretRow>)
    requires AllWellFormed(a) && AllWellFormed(b) && Join(Lines(a)) == Join(Lines(b))
    ensures a == b
    decreases |a|
  {
    JoinIsNothing(a);
    JoinIsNothing(b);
    if a != [] {
      LastRowsAgree(a, b);
      if |a| > 1 {
        InitsJoinAlike(a, b);
        JoinIsInjective(a[..|a| - 1], b[..|b| - 1]);
      } else {
        assert a[..0] == b[..0];
      }
      SameEnds(a, b);
    }
  }

  // ---- The digest -----------------------------------------------------------------------------

  lemma {:induction false} LineCounts(rows: seq<SecretRow>, row: SecretRow)
    requires AllWellFormed(rows) && WellFormed(row)
    ensures multiset(Lines(rows))[Line(row)] == multiset(rows)[row]
  {
    if rows != [] {
      LineCounts(rows[1..], row);
      SplitFirst(rows, row);
      SplitFirst(Lines(rows), Line(row));
      assert Lines(rows)[1..] == Lines(rows[1..]);
      if Line(rows[0]) == Line(row) {
        LineIsInjective(rows[0], row);
      }
    }
  }

  lemma SameRowsSameLines(a: seq<SecretRow>, b: seq<SecretRow>)
    requires AllWellFormed(a) && AllWellFormed(b)
    ensures multiset(a) == multiset(b) <==> multiset(Lines(a)) == multiset(Lines(b))
  {
    forall row | row in a || row in b
      ensures multiset(a)[row] == multiset(Lines(a))[Line(row)] && multiset(b)[row] == multiset(Lines(b))[Line(row)]
    {
      LineCounts(a, row);
      LineCounts(b, row);
    }
    if multiset(a) == multiset(b) {
      forall line: string
        ensures multiset(Lines(a))[line] == multiset(Lines(b))[line]
      {
        SameCount(a, b, line);
      }
    }
    if multiset(Lines(a)) == multiset(Lines(b)) {
      forall row: SecretRow
        ensures multiset(a)[row] == multiset(b)[row]
      {
        if row !in a && row !in b {
          assert row !in multiset(a) && row !in multiset(b);
        }
      }
    }
  }

  lemma SameCount(a: seq<SecretRow>, b: seq<SecretRow>, line: string)
    requires AllWellFormed(a) && AllWellFormed(b) && multiset(a) == multiset(b)
    ensures multiset(Lines(a))[line] == multiset(Lines(b))[line]
  {
    if row :| row in multiset(a) && Line(row) == line {
      LineCounts(a, row);
      LineCounts(b, row);
    } else {
      NotALine(a, line);
      NotALine(b, line);
    }
  }

  lemma NotALine(rows: seq<SecretRow>, line: string)
    requires forall row :: row in multiset(rows) ==> Line(row) != line
    ensures multiset(Lines(rows))[line] == 0
  {
    forall i | 0 <= i < |rows|
      ensures Lines(rows)[i] != line
    {
      assert rows[i] in multiset(rows);
    }
    assert line !in Lines(rows);
  }

  /** Some order of these rows whose lines are the sorted lines. */
  lemma {:induction false} RowsInOrder(rows: seq<SecretRow>) returns (ordered: seq<SecretRow>)
    ensures Lines(ordered) == Sort(Lines(rows)) && multiset(ordered) == multiset(rows)
  {
    if rows == [] {
      ordered := [];
    } else {
      var rest := RowsInOrder(rows[1..]);
      assert rows == [rows[0]] + rows[1..];
      assert Lines(rows) == [Line(rows[0])] + Lines(rows[1..]);
      ordered := InsertRow(rows[0], rest);
    }
  }

  lemma {:induction false} InsertRow(row: SecretRow, rows: seq<SecretRow>) returns (ordered: seq<SecretRow>)
    ensures Lines(ordered) == Insert(Line(row), Lines(rows)) && multiset(ordered) == multiset{row} + multiset(rows)
  {
    if rows == [] || Leq(Line(row), Line(rows[0])) {
      ordered := [row] + rows;
      assert Lines(ordered) == [Line(row)] + Lines(rows);
    } else {
      var rest := InsertRow(row, rows[1..]);
      ordered := [rows[0]] + rest;
      assert rows == [rows[0]] + rows[1..];
      assert Lines(rows)[1..] == Lines(rows[1..]);
      assert Lines(ordered) == [Line(rows[0])] + Lines(rest);
    }
  }

  ghost predicate Injective(hash: string -> string) {
    forall a, b :: hash(a) == hash(b) ==> a == b
  }

  /** No field of a row holds a NUL. */
  ghost predicate NulFree(rows: seq<SecretRow>) {
    forall row :: row in rows ==> NUL !in row.name && NUL !in row.ciphertext
  }

  /**
    Two versions have the same digest exactly when they hold the same own rows, in
    whatever order and however many rows of other services they hold besides.
  */
  lemma DigestTellsOwnRowsApart(a: seq<SecretRow>, b: seq<SecretRow>, hash: string -> string)
    requires Injective(hash) && NulFree(a) && NulFree(b)
    ensures DigestRows(a, hash) == DigestRows(b, hash) <==> multiset(Own(a)) == multiset(Own(b))
  {
    var x, y := Own(a), Own(b);
    var ox := RowsInOrder(x);
    var oy := RowsInOrder(y);
    SameRowsSameLines(x, y);
    SortSorts(Lines(x));
    SortSorts(Lines(y));
    if multiset(x) == multiset(y) {
      SortedIsUnique(Sort(Lines(x)), Sort(Lines(y)));
    }
    if DigestRows(a, hash) == DigestRows(b, hash) {
      assert AllWellFormed(ox) by {
        assert forall row :: row in ox ==> row in multiset(x);
      }
      assert AllWellFormed(oy) by {
        assert forall row :: row in oy ==> row in multiset(y);
      }
      JoinIsInjective(ox, oy);
    }
  }
}
