/** config/database.js: the database host derived from the Supabase URL, and the query
    helpers over the direct PostgreSQL pool with their BEGIN/COMMIT/ROLLBACK and
    release protocol. */
module Database {
  import opened Common
  import opened Records

  // ------------------------------------------------------------ host name

  predicate IsSchemeChar(c: char) {
    ('a' <= c <= 'z') || ('A' <= c <= 'Z') || ('0' <= c <= '9') || c == '+' || c == '-' || c == '.'
  }

  /** The length of the URL scheme: a letter followed by scheme characters. */
  function SchemeLength(s: string): (k: nat)
    ensures k <= |s|
  {
    if s == [] || !(('a' <= s[0] <= 'z') || ('A' <= s[0] <= 'Z')) then 0 else 1 + SchemeRest(s[1..])
  }

  function SchemeRest(s: string): (k: nat)
    ensures k <= |s|
  {
    if s == [] || !IsSchemeChar(s[0]) then 0 else 1 + SchemeRest(s[1..])
  }

  /** The characters that end the host of an authority. */
  predicate EndsHost(c: char) {
    c == '/' || c == '?' || c == '#' || c == ':'
  }

  function HostPart(t: string): (r: string)
    ensures |r| <= |t| && r == t[..|r|]
  {
    if t == [] || EndsHost(t[0]) then [] else [t[0]] + HostPart(t[1..])
  }

  /** `new URL(url).hostname` for `scheme://host[:port][/path]`. Every other text is
      treated as unparsable (None): no scheme, an empty host, and also a scheme without
      `//`, such as "foo:bar" or "https:x.supabase.co", which the URL parser itself
      would accept. */
  function Hostname(url: string): Option<string> {
    var k := SchemeLength(url);
    if k == 0 || !StartsWith(url[k..], "://") then None
    else
      var h := HostPart(url[k + 3..]);
      if h == [] then None else Some(h)
  }

  /** `s.includes(p)`. */
  predicate Contains(s: string, p: string) {
    StartsWith(s, p) || (|s| > 0 && Contains(s[1..], p))
  }

  lemma {:induction false} ContainsSuffix(a: string, p: string)
    ensures Contains(a + p, p)
  {
    if a == [] {
      assert a + p == p && p[..|p|] == p;
    } else {
      assert (a + p)[1..] == a[1..] + p;
      ContainsSuffix(a[1..], p);
    }
  }

  const SupabaseSuffix := ".supabase.co"

  /** extractHostFromSupabaseUrl; None is an unset variable. */
  function ExtractHost(url: Option<string>): string {
    if url.None? || url.value == "" then "localhost"
    else
      var h := Hostname(url.value);
      if h.None? then "localhost"
      else if Contains(h.value, SupabaseSuffix) then "db." + Split(h.value, '.')[0] + SupabaseSuffix
      else h.value
  }

  /** Unset, empty or unparseable URLs name localhost. */
  lemma ExtractHostFallback(url: Option<string>)
    requires url.None? || url.value == "" || Hostname(url.value).None?
    ensures ExtractHost(url) == "localhost"
  {
  }

  lemma {:induction false} SchemeRestOf(s: string, rest: string)
    requires forall i :: 0 <= i < |s| ==> IsSchemeChar(s[i])
    requires rest == [] || !IsSchemeChar(rest[0])
    ensures SchemeRest(s + rest) == |s|
  {
    if s != [] {
      assert (s + rest)[1..] == s[1..] + rest;
      SchemeRestOf(s[1..], rest);
    } else {
      assert s + rest == rest;
    }
  }

  lemma {:induction false} HostPartWhole(t: string)
    requires forall i :: 0 <= i < |t| ==> !EndsHost(t[i])
    ensures HostPart(t) == t
  {
    if t != [] {
      HostPartWhole(t[1..]);
    }
  }

  /** The host of an https URL whose host has no port, path, query or fragment. */
  lemma HttpsHostname(h: string)
    requires h != []
    requires forall i :: 0 <= i < |h| ==> !EndsHost(h[i])
    ensures Hostname("https://" + h) == Some(h)
  {
    var url := "https://" + h;
    assert url == "https" + ("://" + h);
    assert url[1..] == "ttps" + ("://" + h);
    SchemeRestOf("ttps", "://" + h);
    assert SchemeLength(url) == 5;
    assert url[5..] == "://" + h;
    assert url[8..] == h;
    HostPartWhole(h);
  }

  lemma SuffixHostChars()
    ensures forall i :: 0 <= i < |SupabaseSuffix| ==> !EndsHost(SupabaseSuffix[i])
  {
  }

  lemma HostCharsConcat(a: string, b: string)
    requires forall i :: 0 <= i < |a| ==> !EndsHost(a[i])
    requires forall i :: 0 <= i < |b| ==> !EndsHost(b[i])
    ensures forall i :: 0 <= i < |a + b| ==> !EndsHost((a + b)[i])
  {
    forall i | 0 <= i < |a + b| ensures !EndsHost((a + b)[i]) {
      if i >= |a| {
        assert (a + b)[i] == b[i - |a|];
      }
    }
  }

  /** A Supabase host name becomes db.<first label>.supabase.co. */
  lemma ExtractSupabase(url: string, h: string)
    requires url != [] && Hostname(url) == Some(h) && Contains(h, SupabaseSuffix)
    ensures ExtractHost(Some(url)) == "db." + Split(h, '.')[0] + SupabaseSuffix
  {
  }

  /** A project URL https://<project>.supabase.co names db.<project>.supabase.co. */
  lemma ProjectHost(project: string)
    requires project != []
    requires forall i :: 0 <= i < |project| ==> !EndsHost(project[i]) && project[i] != '.'
    ensures ExtractHost(Some("https://" + project + SupabaseSuffix)) == "db." + project + SupabaseSuffix
  {
    var h := project + SupabaseSuffix;
    var url := "https://" + project + SupabaseSuffix;
    assert url == "https://" + h;
    assert Hostname(url) == Some(h) by {
      SuffixHostChars();
      HostCharsConcat(project, SupabaseSuffix);
      HttpsHostname(h);
    }
    assert Contains(h, SupabaseSuffix) by {
      ContainsSuffix(project, SupabaseSuffix);
    }
    assert Split(h, '.')[0] == project by {
      var domain := SupabaseSuffix[1..];
      assert SupabaseSuffix == [SupabaseSuffix[0]] + domain;
      assert h == project + ['.'] + domain;
      SplitFront(project, domain, '.');
    }
    ExtractSupabase(url, h);
  }

  /** Any other host name is used as it is. */
  lemma OtherHost(h: string)
    requires h != []
    requires forall i :: 0 <= i < |h| ==> !EndsHost(h[i])
    requires !Contains(h, SupabaseSuffix)
    ensures ExtractHost(Some("https://" + h)) == h
  {
    HttpsHostname(h);
  }

  // ------------------------------------------------------------ the pool

  datatype Row = Row(cells: seq<JsonValue>)

  datatype QueryError = NoPool | CheckoutFailed | Failed(sql: string)

  const NoPoolMessage := "Direct database connection not available. Use Supabase REST client instead."

  /** The answers of the statements a transaction's callback runs one by one, stopping
      at the first that fails: the statements sent, and the results or that failure. */
  function RunBody(body: seq<string>, failing: set<string>, answers: map<string, seq<Row>>): (seq<string>, Result<seq<seq<Row>>, string>)
  {
    if body == [] then ([], Ok([]))
    else if body[0] in failing then ([body[0]], Err(body[0]))
    else
      var (sent, r) := RunBody(body[1..], failing, answers);
      ([body[0]] + sent, if r.Ok? then Ok([AnswerOf(answers, body[0])] + r.value) else r)
  }

  function AnswerOf(answers: map<string, seq<Row>>, sql: string): seq<Row> {
    if sql in answers then answers[sql] else []
  }

  /** The catch block issues ROLLBACK; when that fails too its error is the one thrown. */
  function Rethrown(failing: set<string>, e: QueryError): QueryError {
    if "ROLLBACK" in failing then Failed("ROLLBACK") else e
  }

  /** What `transaction` sends on its client, and what it returns. */
  function TransactionSpec(body: seq<string>, failing: set<string>, answers: map<string, seq<Row>>): (seq<string>, Result<seq<seq<Row>>, QueryError>)
  {
    if "BEGIN" in failing then
      (["BEGIN", "ROLLBACK"], Err(Rethrown(failing, Failed("BEGIN"))))
    else
      var (sent, r) := RunBody(body, failing, answers);
      if r.Err? then
        (["BEGIN"] + sent + ["ROLLBACK"], Err(Rethrown(failing, Failed(r.error))))
      else if "COMMIT" in failing then
        (["BEGIN"] + sent + ["COMMIT", "ROLLBACK"], Err(Rethrown(failing, Failed("COMMIT"))))
      else
        (["BEGIN"] + sent + ["COMMIT"], Ok(r.value))
  }

  /** The callback succeeds exactly when none of its statements fails, and then every
      statement was sent, each with its answer. */
  lemma {:induction false} RunBodyOk(body: seq<string>, failing: set<string>, answers: map<string, seq<Row>>)
    ensures var (sent, r) := RunBody(body, failing, answers);
      && (r.Ok? <==> forall i :: 0 <= i < |body| ==> body[i] !in failing)
      && (r.Ok? ==> sent == body && |r.value| == |body|)
  {
    if body != [] && body[0] !in failing {
      var tail := body[1..];
      RunBodyOk(tail, failing, answers);
      assert forall i :: 0 <= i < |tail| ==> tail[i] == body[i + 1];
      assert body == [body[0]] + tail;
    }
  }

  /** A failing callback stops at its first failing statement, which is the error. */
  lemma {:induction false} RunBodyErr(body: seq<string>, failing: set<string>, answers: map<string, seq<Row>>)
    ensures var (sent, r) := RunBody(body, failing, answers);
      r.Err? ==> exists k :: 0 <= k < |body| && sent == body[..k + 1] && r.error == body[k] && body[k] in failing
  {
    if body != [] && body[0] !in failing {
      var tail := body[1..];
      RunBodyErr(tail, failing, answers);
      var (sent, r) := RunBody(tail, failing, answers);
      if r.Err? {
        var k :| 0 <= k < |tail| && sent == tail[..k + 1] && r.error == tail[k] && tail[k] in failing;
        assert [body[0]] + sent == body[..k + 2];
        assert body[k + 1] == tail[k];
      }
    } else if body != [] {
      assert [body[0]] == body[..1];
    }
  }

  /** BEGIN comes first. COMMIT is sent only after every statement of the callback
      succeeded, and the transaction succeeds exactly when BEGIN, the callback and
      COMMIT all do; every failure ends with ROLLBACK and is rethrown. */
  lemma TransactionFacts(body: seq<string>, failing: set<string>, answers: map<string, seq<Row>>)
    ensures var (sent, r) := TransactionSpec(body, failing, answers);
      && |sent| >= 2 && sent[0] == "BEGIN"
      && (r.Ok? <==> "BEGIN" !in failing && "COMMIT" !in failing && forall i :: 0 <= i < |body| ==> body[i] !in failing)
      && (r.Ok? ==> sent == ["BEGIN"] + body + ["COMMIT"] && |r.value| == |body|)
      && (r.Err? ==>
            || ("BEGIN" in failing && sent == ["BEGIN", "ROLLBACK"])
            || (exists k :: 0 <= k < |body| && body[k] in failing && sent == ["BEGIN"] + body[..k + 1] + ["ROLLBACK"])
            || ("COMMIT" in failing && sent == ["BEGIN"] + body + ["COMMIT", "ROLLBACK"]))
  {
    RunBodyOk(body, failing, answers);
    RunBodyErr(body, failing, answers);
  }

  /** The run of a remainder of the callback, after `done` succeeded with `results`. */
  function Resumed(done: seq<string>, results: seq<seq<Row>>, p: (seq<string>, Result<seq<seq<Row>>, string>)): (seq<string>, Result<seq<seq<Row>>, string>) {
    (done + p.0, if p.1.Ok? then Ok(results + p.1.value) else p.1)
  }

  lemma RunBodyStep(body: seq<string>, i: nat, results: seq<seq<Row>>, failing: set<string>, answers: map<string, seq<Row>>)
    requires i < |body|
    ensures body[i] in failing ==> Resumed(body[..i], results, RunBody(body[i..], failing, answers)) == (body[..i + 1], Err(body[i]))
    ensures body[i] !in failing ==>
      Resumed(body[..i], results, RunBody(body[i..], failing, answers)) == Resumed(body[..i + 1], results + [AnswerOf(answers, body[i])], RunBody(body[i + 1..], failing, answers))
  {
    assert body[i..][0] == body[i] && body[i..][1..] == body[i + 1..];
    assert body[..i + 1] == body[..i] + [body[i]];
    var p := RunBody(body[i + 1..], failing, answers);
    assert body[..i] + ([body[i]] + p.0) == body[..i + 1] + p.0;
    if p.1.Ok? {
      assert results + ([AnswerOf(answers, body[i])] + p.1.value) == (results + [AnswerOf(answers, body[i])]) + p.1.value;
    }
  }

  /** `result.rows[0] || null`. */
  function FirstRow(rows: seq<Row>): (r: Option<Row>)
    ensures r.None? <==> rows == []
    ensures r.Some? ==> r.value == rows[0]
  {
    if rows == [] then None else Some(rows[0])
  }

  /** The direct connection: `pool` is `pgPool !== null`; `sent` lists the statements
      sent on pool clients, `connects` and `releases` count client checkouts and
      returns. `pgPool.connect()` rejects when `checkoutFails` (no client within the
      2-second connection timeout). The statements in `failing` throw; the others answer
      from `answers`. */
  class PgDatabase {
    const pool: bool
    const checkoutFails: bool
    const failing: set<string>
    const answers: map<string, seq<Row>>
    var sent: seq<string>
    var connects: nat
    var releases: nat

    /** Module load: the pool stays only when the test connection succeeds. */
    constructor (testConnectOk: bool, checkoutFails: bool, failing: set<string>, answers: map<string, seq<Row>>)
      ensures pool == testConnectOk && this.checkoutFails == checkoutFails
      ensures this.failing == failing && this.answers == answers
      ensures sent == [] && connects == 0 && releases == 0
    {
      pool := testConnectOk;
      this.checkoutFails := checkoutFails;
      this.failing := failing;
      this.answers := answers;
      sent := [];
      connects, releases := 0, 0;
    }

    function IsDirectConnectionAvailable(): (r: bool)
      ensures r <==> pool
    {
      pool
    }

    /** `client.query(sql)` on a checked-out client. */
    method ClientQuery(sql: string) returns (r: Result<seq<Row>, string>)
      modifies this
      ensures sent == old(sent) + [sql] && connects == old(connects) && releases == old(releases)
      ensures r == if sql in failing then Err(sql) else Ok(AnswerOf(answers, sql))
    {
      sent := sent + [sql];
      if sql in failing {
        r := Err(sql);
      } else {
        r := Ok(AnswerOf(answers, sql));
      }
    }

    /** `await pgPool.connect()`: a client is checked out, or the call rejects and
        nothing is checked out. */
    method Connect() returns (ok: bool)
      modifies this
      ensures ok <==> !checkoutFails
      ensures connects == old(connects) + (if ok then 1 else 0) && sent == old(sent) && releases == old(releases)
    {
      if checkoutFails {
        return false;
      }
      connects := connects + 1;
      ok := true;
    }

    method Release()
      modifies this
      ensures releases == old(releases) + 1 && sent == old(sent) && connects == old(connects)
    {
      releases := releases + 1;
    }

    /** `db.query(text)`: without a pool it throws before connecting; a failed checkout
        throws having sent and released nothing; otherwise one client is checked out and
        released once, whatever the query does. */
    method Query(text: string) returns (r: Result<seq<Row>, QueryError>)
      modifies this
      ensures !pool ==> r == Err(NoPool) && sent == old(sent) && connects == old(connects) && releases == old(releases)
      ensures pool && checkoutFails ==>
        r == Err(CheckoutFailed) && sent == old(sent) && connects == old(connects) && releases == old(releases)
      ensures pool && !checkoutFails ==>
        && sent == old(sent) + [text]
        && connects == old(connects) + 1 && releases == old(releases) + 1
        && r == if text in failing then Err(Failed(text)) else Ok(AnswerOf(answers, text))
    {
      if !pool {
        return Err(NoPool);
      }
      var ok := Connect();
      if !ok {
        return Err(CheckoutFailed);
      }
      var q := ClientQuery(text);
      Release();
      if q.Err? {
        r := Err(Failed(q.error));
      } else {
        r := Ok(q.value);
      }
    }

    /** `db.queryRows(text)`. */
    method QueryRows(text: string) returns (r: Result<seq<Row>, QueryError>)
      modifies this
      ensures !pool ==> r == Err(NoPool) && sent == old(sent) && releases == old(releases)
      ensures pool && checkoutFails ==> r == Err(CheckoutFailed) && sent == old(sent) && releases == old(releases)
      ensures pool && !checkoutFails ==> sent == old(sent) + [text] && releases == old(releases) + 1 && connects == old(connects) + 1
      ensures pool && !checkoutFails ==> r == if text in failing then Err(Failed(text)) else Ok(AnswerOf(answers, text))
    {
      r := Query(text);
    }

    /** `db.queryOne(text)`: the first row, or null when there is none. */
    method QueryOne(text: string) returns (r: Result<Option<Row>, QueryError>)
      modifies this
      ensures !pool ==> r == Err(NoPool) && sent == old(sent) && releases == old(releases)
      ensures pool && checkoutFails ==> r == Err(CheckoutFailed) && sent == old(sent) && releases == old(releases)
      ensures pool && !checkoutFails ==> sent == old(sent) + [text] && releases == old(releases) + 1 && connects == old(connects) + 1
      ensures pool && !checkoutFails ==> r == if text in failing then Err(Failed(text)) else Ok(FirstRow(AnswerOf(answers, text)))
    {
      var q := Query(text);
      if q.Err? {
        return Err(q.error);
      }
      r := Ok(FirstRow(q.value));
    }

    /** The callback: its statements, run on the transaction's client. */
    method RunCallback(body: seq<string>) returns (r: Result<seq<seq<Row>>, string>)
      modifies this
      ensures sent == old(sent) + RunBody(body, failing, answers).0
      ensures r == RunBody(body, failing, answers).1
      ensures connects == old(connects) && releases == old(releases)
    {
      var results: seq<seq<Row>> := [];
      var i := 0;
      assert body[..0] == [] && body[0..] == body;
      var p0 := RunBody(body, failing, answers);
      assert [] + p0.0 == p0.0;
      assert p0.1.Ok? ==> [] + p0.1.value == p0.1.value;
      while i < |body|
        invariant 0 <= i <= |body|
        invariant sent == old(sent) + body[..i]
        invariant connects == old(connects) && releases == old(releases)
        invariant RunBody(body, failing, answers) == Resumed(body[..i], results, RunBody(body[i..], failing, answers))
      {
        RunBodyStep(body, i, results, failing, answers);
        var q := ClientQuery(body[i]);
        if q.Err? {
          assert body[..i] + [body[i]] == body[..i + 1];
          assert q.error == body[i];
          return Err(q.error);
        }
        results := results + [q.value];
        i := i + 1;
      }
      assert body[i..] == [] && body[..i] == body;
      assert results + [] == results && body + [] == body;
      r := Ok(results);
    }

    /** `db.transaction(callback)`. */
    method Transaction(body: seq<string>) returns (r: Result<seq<seq<Row>>, QueryError>)
      modifies this
      ensures !pool ==> r == Err(NoPool) && sent == old(sent) && connects == old(connects) && releases == old(releases)
      ensures pool && checkoutFails ==>
        r == Err(CheckoutFailed) && sent == old(sent) && connects == old(connects) && releases == old(releases)
      ensures pool && !checkoutFails ==>
        && sent == old(sent) + TransactionSpec(body, failing, answers).0
        && r == TransactionSpec(body, failing, answers).1
        && connects == old(connects) + 1 && releases == old(releases) + 1
    {
      if !pool {
        return Err(NoPool);
      }
      var ok := Connect();
      if !ok {
        return Err(CheckoutFailed);
      }
      ghost var s0 := sent;
      var b := ClientQuery("BEGIN");
      if b.Err? {
        var rb := ClientQuery("ROLLBACK");
        r := Err(if rb.Err? then Failed("ROLLBACK") else Failed("BEGIN"));
        Release();
        assert sent == s0 + ["BEGIN", "ROLLBACK"];
        return;
      }
      var c := RunCallback(body);
      ghost var run := RunBody(body, failing, answers);
      assert sent == s0 + (["BEGIN"] + run.0);
      if c.Err? {
        var rb := ClientQuery("ROLLBACK");
        r := Err(if rb.Err? then Failed("ROLLBACK") else Failed(c.error));
        Release();
        assert sent == s0 + (["BEGIN"] + run.0 + ["ROLLBACK"]);
        return;
      }
      var cm := ClientQuery("COMMIT");
      if cm.Err? {
        var rb := ClientQuery("ROLLBACK");
        r := Err(if rb.Err? then Failed("ROLLBACK") else Failed("COMMIT"));
        Release();
        assert sent == s0 + (["BEGIN"] + run.0 + ["COMMIT", "ROLLBACK"]);
        return;
      }
      Release();
      r := Ok(c.value);
      assert sent == s0 + (["BEGIN"] + run.0 + ["COMMIT"]);
    }
  }
}
