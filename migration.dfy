/** run-migration.js: the lease_reminders DDL is the ledger's invariant (see Ledger);
    this module models how the script cuts its SQL text into statements and runs them. */
module Migration {
  import opened Common

  // ------------------------------------------------------------ text helpers

  /** A string made only of white space. */
  ghost predicate Blank(s: string) {
    forall k :: 0 <= k < |s| ==> IsSpace(s[k])
  }

  /** Drops trailing white space. */
  function TrimEnd(s: string): (r: string)
    ensures |r| <= |s| && r == s[..|r|] && Blank(s[|r|..])
    ensures r == [] || !IsSpace(r[|r| - 1])
  {
    if s != [] && IsSpace(s[|s| - 1]) then TrimEnd(s[..|s| - 1]) else s
  }

  /** `s.trim()`: white space removed from both ends. */
  function Trim(s: string): string {
    TrimEnd(SkipSpaces(s))
  }

  /** Trim keeps a middle part of s: white space before it, white space after it, and
      neither end of it is white space. */
  lemma TrimShape(s: string)
    ensures var i := |s| - |SkipSpaces(s)|;
      && i + |Trim(s)| <= |s|
      && Blank(s[..i]) && s[i..i + |Trim(s)|] == Trim(s) && Blank(s[i + |Trim(s)|..])
    ensures Trim(s) == [] || (!IsSpace(Trim(s)[0]) && !IsSpace(Trim(s)[|Trim(s)| - 1]))
  {
    SkipSpacesShape(s);
    var t := SkipSpaces(s);
    var i := |s| - |t|;
    var r := TrimEnd(t);
    assert s[i..i + |r|] == t[..|r|];
    assert s[i + |r|..] == t[|r|..];
  }

  lemma {:induction false} SkipSpacesShape(s: string)
    ensures SkipSpaces(s) == s[|s| - |SkipSpaces(s)|..]
    ensures Blank(s[..|s| - |SkipSpaces(s)|])
  {
    if s != [] && IsSpace(s[0]) {
      SkipSpacesShape(s[1..]);
      assert s[1..][..|s| - 1 - |SkipSpaces(s)|] == s[1..|s| - |SkipSpaces(s)|];
    }
  }

  /** A trimmed chunk holds no character its chunk does not hold. */
  lemma TrimmedWithout(p: string, c: char)
    requires c !in p
    ensures c !in Trim(p)
  {
    TrimShape(p);
    var i := |p| - |SkipSpaces(p)|;
    var r := Trim(p);
    forall k | 0 <= k < |r| ensures r[k] != c {
      assert r[k] == p[i + k];
    }
  }

  /** The part Trim keeps is the only one with that shape: white space around a text
      whose ends are not white space trims to that text. */
  lemma {:induction false} TrimOf(a: string, m: string, b: string)
    requires Blank(a) && Blank(b)
    requires m == [] || (!IsSpace(m[0]) && !IsSpace(m[|m| - 1]))
    ensures Trim(a + m + b) == m
  {
    if m == [] {
      assert a + m + b == (a + b) + [];
      assert Blank(a + b);
      SkipBlank(a + b, []);
    } else {
      assert a + m + b == a + (m + b);
      assert (m + b)[0] == m[0];
      SkipBlank(a, m + b);
      TrimEndBlank(m, b);
    }
  }

  lemma {:induction false} SkipBlank(a: string, t: string)
    requires Blank(a)
    requires t == [] || !IsSpace(t[0])
    ensures SkipSpaces(a + t) == t
  {
    if a != [] {
      assert (a + t)[1..] == a[1..] + t;
      SkipBlank(a[1..], t);
    }
  }

  lemma {:induction false} TrimEndBlank(m: string, b: string)
    requires Blank(b)
    requires m == [] || !IsSpace(m[|m| - 1])
    ensures TrimEnd(m + b) == m
  {
    if b != [] {
      assert (m + b)[..|m + b| - 1] == m + b[..|b| - 1];
      TrimEndBlank(m, b[..|b| - 1]);
    } else {
      assert m + b == m;
    }
  }

  // ------------------------------------------------------------ the splitter

  /** The filter of the splitter: a chunk is run when it is not empty and does not
      start with a comment marker. */
  predicate Runnable(stmt: string) {
    |stmt| > 0 && !StartsWith(stmt, "--")
  }

  /** `sql.split(';').map(trim).filter(...)`. */
  function Statements(sql: string): (r: seq<string>)
    ensures |r| <= |Split(sql, ';')|
  {
    Filter(Map(Split(sql, ';'), Trim), Runnable)
  }

  /** Every statement is a non-empty trimmed text without ';' that does not start with
      "--". */
  lemma StatementsShape(sql: string)
    ensures forall s :: s in Statements(sql) ==>
      && Runnable(s) && ';' !in s
      && !IsSpace(s[0]) && !IsSpace(s[|s| - 1])
  {
    var pieces := Split(sql, ';');
    var trimmed := Map(pieces, Trim);
    forall s | s in Statements(sql)
      ensures Runnable(s) && ';' !in s && !IsSpace(s[0]) && !IsSpace(s[|s| - 1])
    {
      assert s in trimmed && Runnable(s);
      var i :| 0 <= i < |trimmed| && trimmed[i] == s;
      TrimShape(pieces[i]);
      TrimmedWithout(pieces[i], ';');
    }
  }

  /** For SQL written as chunks joined by ';', the statements are exactly the trimmed
      chunks that pass the filter, in their original order. */
  lemma StatementsOfChunks(chunks: seq<string>)
    requires |chunks| >= 1
    requires forall i :: 0 <= i < |chunks| ==> ';' !in chunks[i]
    ensures Statements(Join(chunks, ";")) == Filter(Map(chunks, Trim), Runnable)
  {
    JoinSplit(chunks, ';');
  }

  /** A chunk whose first non-blank text is a comment is never run, whatever SQL follows
      the comment line. */
  lemma CommentLedChunkDropped(pad: string, comment: string, ddl: string)
    requires Blank(pad)
    ensures !Runnable(Trim(pad + "--" + comment + "\n" + ddl))
  {
    var t := "--" + comment + "\n" + ddl;
    assert pad + "--" + comment + "\n" + ddl == pad + t;
    SkipBlank(pad, t);
    assert TrimEnd(t)[..2] == "--" by {
      TrimEndKeeps(t, 2);
    }
  }

  lemma {:induction false} TrimEndKeeps(t: string, n: nat)
    requires n <= |t|
    requires forall k :: 0 <= k < n ==> !IsSpace(t[k])
    ensures |TrimEnd(t)| >= n && TrimEnd(t)[..n] == t[..n]
  {
    if t != [] && IsSpace(t[|t| - 1]) {
      TrimEndKeeps(t[..|t| - 1], n);
    }
  }

  /** So a script whose first chunk opens with a comment runs the same statements as
      the script without that chunk: the CREATE TABLE statement of the lease_reminders
      migration, which sits under "-- Create lease_reminders table ...", is never sent. */
  lemma CommentLedChunkSkipped(pad: string, comment: string, ddl: string, rest: seq<string>)
    requires Blank(pad)
    requires |rest| >= 1
    requires ';' !in pad + "--" + comment + "\n" + ddl
    requires forall i :: 0 <= i < |rest| ==> ';' !in rest[i]
    ensures Statements(Join([pad + "--" + comment + "\n" + ddl] + rest, ";")) == Statements(Join(rest, ";"))
  {
    var first := pad + "--" + comment + "\n" + ddl;
    var chunks := [first] + rest;
    NoSeparatorCons(first, rest);
    StatementsOfChunks(chunks);
    StatementsOfChunks(rest);
    CommentLedChunkDropped(pad, comment, ddl);
    DropFront(Trim(first), Map(rest, Trim), Runnable);
    MapCons(first, rest, Trim);
  }

  lemma NoSeparatorCons(first: string, rest: seq<string>)
    requires ';' !in first
    requires forall i :: 0 <= i < |rest| ==> ';' !in rest[i]
    ensures forall i :: 0 <= i < |[first] + rest| ==> ';' !in ([first] + rest)[i]
  {
  }

  lemma MapCons<T, U>(x: T, s: seq<T>, f: T -> U)
    ensures Map([x] + s, f) == [f(x)] + Map(s, f)
  {
  }

  lemma DropFront<T>(x: T, s: seq<T>, p: T -> bool)
    requires !p(x)
    ensures Filter([x] + s, p) == Filter(s, p)
  {
    FilterAppend([x], s, p);
    assert [x][..0] == [];
  }

  // ------------------------------------------------------------ a splitter that keeps commented DDL

  /** The index of the first line break of t, or |t| when there is none. */
  function LineEnd(t: string): (k: nat)
    ensures k <= |t|
    ensures k < |t| ==> t[k] == '\n'
    ensures forall j :: 0 <= j < k ==> t[j] != '\n'
  {
    if t == [] || t[0] == '\n' then 0 else 1 + LineEnd(t[1..])
  }

  /** Removes the comment lines that open a chunk, so that the SQL under them remains. */
  function StripLeadingComments(s: string): string
    decreases |s|
  {
    var t := SkipSpaces(s);
    if StartsWith(t, "--") then
      var k := LineEnd(t);
      if k == |t| then [] else StripLeadingComments(t[k + 1..])
    else t
  }

  predicate NonEmpty(s: string) { |s| > 0 }

  function TrimStatement(chunk: string): string {
    Trim(StripLeadingComments(chunk))
  }

  /** The splitter with the comment lines removed before the empty chunks are dropped. */
  function StatementsKeepingDdl(sql: string): (r: seq<string>)
    ensures |r| <= |Split(sql, ';')|
  {
    Filter(Map(Split(sql, ';'), TrimStatement), NonEmpty)
  }

  lemma CommentLineEnd(comment: string, ddl: string)
    requires '\n' !in comment
    ensures var t := "--" + comment + "\n" + ddl;
      LineEnd(t) == 2 + |comment| && t[LineEnd(t) + 1..] == ddl
  {
    var t := "--" + comment + "\n" + ddl;
    assert t[2 + |comment|] == '\n';
    assert t[2 + |comment| + 1..] == ddl;
  }

  /** The comment line is dropped and the SQL beneath it is what remains. */
  lemma StripCommentLine(pad: string, comment: string, ddl: string)
    requires Blank(pad)
    requires '\n' !in comment
    ensures StripLeadingComments(pad + "--" + comment + "\n" + ddl) == StripLeadingComments(ddl)
  {
    var t := "--" + comment + "\n" + ddl;
    assert pad + "--" + comment + "\n" + ddl == pad + t;
    SkipBlank(pad, t);
    CommentLineEnd(comment, ddl);
  }

  /** SQL that does not itself open with a comment is kept as its trimmed text. */
  lemma KeepsDdl(ddl: string)
    requires Runnable(Trim(ddl))
    ensures TrimStatement(ddl) == Trim(ddl)
  {
    var t := SkipSpaces(ddl);
    if StartsWith(t, "--") {
      TrimEndKeeps(t, 2);
      assert false;
    }
    assert SkipSpaces(t) == t;
  }

  /** With the corrected splitter, a chunk that opens with a comment line contributes
      the statement written under it. */
  lemma CommentLedChunkKept(pad: string, comment: string, ddl: string, rest: seq<string>)
    requires Blank(pad)
    requires '\n' !in comment
    requires Runnable(Trim(ddl))
    requires |rest| >= 1
    requires ';' !in pad + "--" + comment + "\n" + ddl
    requires forall i :: 0 <= i < |rest| ==> ';' !in rest[i]
    ensures StatementsKeepingDdl(Join([pad + "--" + comment + "\n" + ddl] + rest, ";"))
      == [Trim(ddl)] + StatementsKeepingDdl(Join(rest, ";"))
  {
    var first := pad + "--" + comment + "\n" + ddl;
    var chunks := [first] + rest;
    NoSeparatorCons(first, rest);
    JoinSplit(chunks, ';');
    JoinSplit(rest, ';');
    StripCommentLine(pad, comment, ddl);
    KeepsDdl(ddl);
    MapCons(first, rest, TrimStatement);
    KeepFront(Trim(ddl), Map(rest, TrimStatement), NonEmpty);
  }

  lemma KeepFront<T>(x: T, s: seq<T>, p: T -> bool)
    requires p(x)
    ensures Filter([x] + s, p) == [x] + Filter(s, p)
  {
    FilterAppend([x], s, p);
    assert [x][..0] == [];
  }

  // ------------------------------------------------------------ the runner

  /** What the runner asks of the database: the `exec_sql` remote procedure, and the
      read of `_pg_stat_statements` it falls back to when that call fails. */
  datatype Call = Exec(sql: string) | Probe(sql: string)

  /** The calls made for a list of statements, given the statements whose RPC fails. */
  function RunCalls(stmts: seq<string>, failing: set<string>): (r: seq<Call>)
  {
    if stmts == [] then []
    else
      var s := stmts[|stmts| - 1];
      RunCalls(stmts[..|stmts| - 1], failing) + [Exec(s)] + (if s in failing then [Probe(s)] else [])
  }

  predicate IsExec(c: Call) { c.Exec? }

  function SqlOf(c: Call): string { c.sql }

  lemma RunCallsLast(stmts: seq<string>, failing: set<string>)
    requires stmts != []
    ensures var s := stmts[|stmts| - 1];
      RunCalls(stmts, failing) == RunCalls(stmts[..|stmts| - 1], failing) + ([Exec(s)] + (if s in failing then [Probe(s)] else []))
  {
  }

  lemma ExecsOfStep(s: string, failing: set<string>)
    ensures Filter([Exec(s)] + (if s in failing then [Probe(s)] else []), IsExec) == [Exec(s)]
  {
    var tail := [Exec(s)] + (if s in failing then [Probe(s)] else []);
    assert tail[..1] == [Exec(s)];
    if s in failing {
      assert tail[..|tail| - 1] == [Exec(s)];
    }
  }

  /** A failing statement does not stop the run: every statement is sent to exec_sql,
      in order. */
  lemma {:induction false} RunCallsExecs(stmts: seq<string>, failing: set<string>)
    ensures Map(Filter(RunCalls(stmts, failing), IsExec), SqlOf) == stmts
  {
    if stmts != [] {
      var init := stmts[..|stmts| - 1];
      var s := stmts[|stmts| - 1];
      var calls := RunCalls(init, failing);
      var tail := [Exec(s)] + (if s in failing then [Probe(s)] else []);
      var execs := Filter(calls, IsExec);
      calc {
        Map(Filter(RunCalls(stmts, failing), IsExec), SqlOf);
        == { RunCallsLast(stmts, failing); }
        Map(Filter(calls + tail, IsExec), SqlOf);
        == { FilterAppend(calls, tail, IsExec); ExecsOfStep(s, failing); }
        Map(execs + [Exec(s)], SqlOf);
        == { MapSnoc(execs, Exec(s), SqlOf); RunCallsExecs(init, failing); }
        init + [s];
        == { assert stmts == init + [s]; }
        stmts;
      }
    }
  }

  /** Exactly the statements exec_sql refuses are followed by the fallback read. */
  lemma {:induction false} RunCallsProbes(stmts: seq<string>, failing: set<string>)
    ensures forall s :: Probe(s) in RunCalls(stmts, failing) <==> s in stmts && s in failing
  {
    if stmts != [] {
      var init := stmts[..|stmts| - 1];
      RunCallsProbes(init, failing);
      RunCallsLast(stmts, failing);
      assert stmts == init + [stmts[|stmts| - 1]];
    }
  }

  lemma MapSnoc<T, U>(s: seq<T>, x: T, f: T -> U)
    ensures Map(s + [x], f) == Map(s, f) + [f(x)]
  {
    assert (s + [x])[..|s|] == s;
  }

  /** The statements exec_sql accepts. */
  function Accepted(failing: set<string>): string -> bool {
    s => s !in failing
  }

  lemma RunCallsStep(stmts: seq<string>, i: nat, failing: set<string>)
    requires i < |stmts|
    ensures RunCalls(stmts[..i + 1], failing)
      == RunCalls(stmts[..i], failing) + ([Exec(stmts[i])] + (if stmts[i] in failing then [Probe(stmts[i])] else []))
  {
    assert stmts[..i + 1][..i] == stmts[..i];
  }

  /** The database endpoint the script talks to: it records the calls it receives; the
      statements in `failing` are refused by exec_sql. */
  class SqlEndpoint {
    var calls: seq<Call>
    var applied: seq<string>
    const failing: set<string>

    constructor (failing: set<string>)
      ensures calls == [] && applied == [] && this.failing == failing
    {
      calls := [];
      applied := [];
      this.failing := failing;
    }

    /** `supabase.rpc('exec_sql', { sql })`: true when it reports an error. */
    method ExecSql(sql: string) returns (failed: bool)
      modifies this
      ensures failed <==> sql in failing
      ensures calls == old(calls) + [Exec(sql)]
      ensures applied == old(applied) + (if failed then [] else [sql])
    {
      calls := calls + [Exec(sql)];
      failed := sql in failing;
      if !failed {
        applied := applied + [sql];
      }
    }

    /** The fallback select on `_pg_stat_statements`: a read that changes nothing in the
        schema; its own error is only logged. */
    method ProbeStatements(sql: string)
      modifies this
      ensures calls == old(calls) + [Probe(sql)] && applied == old(applied)
    {
      calls := calls + [Probe(sql)];
    }
  }

  /** One pass of the loop body: the RPC, and the fallback read when it fails. */
  method RunStatement(db: SqlEndpoint, stmt: string)
    modifies db
    ensures db.calls == old(db.calls) + ([Exec(stmt)] + (if stmt in db.failing then [Probe(stmt)] else []))
    ensures db.applied == old(db.applied) + (if Accepted(db.failing)(stmt) then [stmt] else [])
  {
    var failed := db.ExecSql(stmt);
    if failed {
      db.ProbeStatements(stmt);
    }
  }

  lemma AppendAssoc<T>(a: seq<T>, b: seq<T>, c: seq<T>)
    ensures a + b + c == a + (b + c)
  {
  }

  /** The `for (const statement of statements)` loop. */
  method RunAll(db: SqlEndpoint, stmts: seq<string>)
    requires forall i :: 0 <= i < |stmts| ==> stmts[i] != []
    modifies db
    ensures db.calls == old(db.calls) + RunCalls(stmts, db.failing)
    ensures db.applied == old(db.applied) + Filter(stmts, Accepted(db.failing))
  {
    ghost var calls0, applied0 := db.calls, db.applied;
    for i := 0 to |stmts|
      invariant db.calls == calls0 + RunCalls(stmts[..i], db.failing)
      invariant db.applied == applied0 + Filter(stmts[..i], Accepted(db.failing))
    {
      var stmt := stmts[i];
      ghost var c, d := RunCalls(stmts[..i], db.failing), Filter(stmts[..i], Accepted(db.failing));
      ghost var step := [Exec(stmt)] + (if stmt in db.failing then [Probe(stmt)] else []);
      RunCallsStep(stmts, i, db.failing);
      FilterStep(stmts, i, Accepted(db.failing));
      if stmt != [] {
        RunStatement(db, stmt);
        AppendAssoc(calls0, c, step);
        AppendAssoc(applied0, d, if Accepted(db.failing)(stmt) then [stmt] else []);
      } else {
        // the filter has already dropped empty chunks
        assert false;
      }
    }
    assert stmts[..|stmts|] == stmts;
  }

  /** runMigration: split the script, then run each statement. */
  method RunMigration(db: SqlEndpoint, sql: string)
    modifies db
    ensures db.calls == old(db.calls) + RunCalls(Statements(sql), db.failing)
    ensures db.applied == old(db.applied) + Filter(Statements(sql), Accepted(db.failing))
  {
    var stmts := Statements(sql);
    StatementsShape(sql);
    assert forall i :: 0 <= i < |stmts| ==> stmts[i] in stmts;
    RunAll(db, stmts);
  }

  /** runMigration with the corrected splitter: the comment lines are stripped, so the
      CREATE TABLE statement under its comment is sent too. */
  method RunMigrationKeepingDdl(db: SqlEndpoint, sql: string)
    modifies db
    ensures db.calls == old(db.calls) + RunCalls(StatementsKeepingDdl(sql), db.failing)
    ensures db.applied == old(db.applied) + Filter(StatementsKeepingDdl(sql), Accepted(db.failing))
  {
    var stmts := StatementsKeepingDdl(sql);
    assert forall i :: 0 <= i < |stmts| ==> stmts[i] in stmts;
    RunAll(db, stmts);
  }
}
