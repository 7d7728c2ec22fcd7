/** The per-tenant audit chain (crates/shaka-memory/src/lib.rs, event hashing in
    crates/shaka-core/src/lib.rs). Rows are kept in commit order for all tenants together. */
module AuditChain {
  import opened Base
  import opened PlanCore
  import opened AuditText

  /** A digest appears in a text as one symbol, which stands for its 64 hexadecimal digits. */
  datatype Symbol = Letter(c: char) | Digits(hash: Hash)

  /** SHA-256 as an injective constructor over one text; `HashText` is any other stored string. */
  datatype Hash = Sha256Of(text: seq<Symbol>) | HashText(stored: string)

  function Letters(s: string): seq<Symbol> {
    seq(|s|, i requires 0 <= i < |s| => Letter(s[i]))
  }

  /** The previous hash as it is printed at the end of the text. */
  function PreviousText(previous: Option<Hash>): seq<Symbol> {
    match previous
    case None => Letters("None")
    case Some(Sha256Of(text)) => Letters("Some(\"") + [Digits(Sha256Of(text))] + Letters("\")")
    case Some(HashText(stored)) => Letters("Some(" + Quoted(stored) + ")")
  }

  /** Identifier and instant are represented by their printed form, metadata by its entries in key
      order. */
  datatype AuditEvent = AuditEvent(
    eventId: Word, taskId: Option<TaskId>, tenant: TenantId, actor: string, action: string, outcome: string,
    occurredAt: Word, metadata: Metadata, previousHash: Option<Hash>, eventHash: Hash)
  {
    /** Neither the task nor the tenant is part of it. */
    function HashedText(): seq<Symbol> {
      Letters(Head(eventId, occurredAt, actor, action, outcome, metadata) + "|") + PreviousText(previousHash)
    }
    function CalculateHash(): Hash {
      Sha256Of(HashedText())
    }
    function WithPreviousHash(previous: Option<Hash>): AuditEvent {
      var event := this.(previousHash := previous);
      event.(eventHash := event.CalculateHash())
    }
    predicate HasValidHash() {
      eventHash == CalculateHash()
    }
    /** No separator in the three free texts. */
    predicate IsPlain() {
      Plain(actor, action, outcome)
    }
  }

  /** The columns beside the serialised event. */
  datatype AuditRow = AuditRow(eventId: Word, tenant: TenantId, eventHash: Hash, body: AuditEvent)

  datatype AuditVerification = AuditVerification(valid: bool, checkedEvents: nat, failureAt: Option<Word>)

  function RowsOf(rows: seq<AuditRow>, tenant: TenantId): seq<AuditRow> {
    if rows == [] then [] else
      RowsOf(rows[..|rows| - 1], tenant)
      + (if rows[|rows| - 1].tenant == tenant then [rows[|rows| - 1]] else [])
  }

  function LastHash(rows: seq<AuditRow>): Option<Hash> {
    if rows == [] then None else Some(rows[|rows| - 1].eventHash)
  }

  /** Row `i` of one tenant's chain points back to row `i - 1`. */
  predicate LinkOk(chain: seq<AuditRow>, tenant: TenantId, i: nat)
    requires i < |chain|
  {
    && chain[i].body.tenant == tenant
    && chain[i].body.previousHash == (if i == 0 then None else Some(chain[i - 1].body.eventHash))
    && chain[i].body.eventHash == chain[i].eventHash
    && chain[i].body.HasValidHash()
  }

  predicate ChainOk(chain: seq<AuditRow>, tenant: TenantId) {
    forall i :: 0 <= i < |chain| ==> LinkOk(chain, tenant, i)
  }

  class AuditLog {
    var rows: seq<AuditRow>
    /** The events accepted so far, of all tenants. */
    ghost var accepted: seq<AuditEvent>

    ghost predicate Valid()
      reads this
    {
      rows == AfterAppends(accepted)
    }

    constructor ()
      ensures Valid() && accepted == []
    {
      rows, accepted := [], [];
    }

    /** Chains the event to the tenant's last row; a reused event identifier is refused. */
    method Append(event: AuditEvent) returns (r: Result<AuditEvent>)
      requires Valid()
      modifies this
      ensures Valid()
      ensures r.Err? <==> exists i :: 0 <= i < |old(rows)| && old(rows)[i].eventId == event.eventId
      ensures r.Err? ==> rows == old(rows) && accepted == old(accepted)
      ensures r.Ok? ==> accepted == old(accepted) + [event] && rows == old(rows) + [RowFor(old(rows), event)]
      ensures r.Ok? ==> r.value == rows[|rows| - 1].body
    {
      hide Head, PreviousText, Letters;
      var previous: Option<Hash> := None;
      for i := 0 to |rows|
        invariant previous == LastHash(RowsOf(rows[..i], event.tenant))
      {
        assert rows[..i + 1][..i] == rows[..i];
        if rows[i].tenant == event.tenant {
          previous := Some(rows[i].eventHash);
        }
      }
      assert rows[..|rows|] == rows;
      var chained := event.WithPreviousHash(previous);
      if exists i :: 0 <= i < |rows| && rows[i].eventId == chained.eventId {
        return Err(UniqueViolation);
      }
      rows := rows + [AuditRow(chained.eventId, chained.tenant, chained.eventHash, chained)];
      accepted := accepted + [event];
      assert accepted[..|accepted| - 1] == old(accepted);
      return Ok(chained);
    }

    /** Walks the tenant's rows; stops at the first broken link. */
    method Verify(tenant: TenantId) returns (report: AuditVerification)
      ensures report.valid <==> ChainOk(RowsOf(rows, tenant), tenant)
      ensures report.valid ==> report == AuditVerification(true, |RowsOf(rows, tenant)|, None)
      ensures !report.valid ==>
        && report.checkedEvents < |RowsOf(rows, tenant)|
        && ChainOk(RowsOf(rows, tenant)[..report.checkedEvents], tenant)
        && !LinkOk(RowsOf(rows, tenant), tenant, report.checkedEvents)
        && report.failureAt == Some(RowsOf(rows, tenant)[report.checkedEvents].body.eventId)
    {
      hide Head, PreviousText, Letters;
      var chain := RowsOf(rows, tenant);
      var previousHash: Option<Hash> := None;
      var checked := 0;
      while checked < |chain|
        invariant checked <= |chain|
        invariant previousHash == (if checked == 0 then None else Some(chain[checked - 1].body.eventHash))
        invariant forall i :: 0 <= i < checked ==> LinkOk(chain, tenant, i)
      {
        var event := chain[checked].body;
        if event.tenant != tenant || event.previousHash != previousHash
          || event.eventHash != chain[checked].eventHash || !event.HasValidHash()
        {
          assert !LinkOk(chain, tenant, checked);
          ChainPrefix(chain, tenant, checked);
          return AuditVerification(false, checked, Some(event.eventId));
        }
        previousHash := Some(event.eventHash);
        checked := checked + 1;
      }
      return AuditVerification(true, checked, None);
    }
  }

  lemma ChainPrefix(chain: seq<AuditRow>, tenant: TenantId, n: nat)
    requires n <= |chain| && forall i :: 0 <= i < n ==> LinkOk(chain, tenant, i)
    ensures ChainOk(chain[..n], tenant)
  {
    hide Head, PreviousText, Letters;
    forall i | 0 <= i < n ensures LinkOk(chain[..n], tenant, i) {
      assert LinkOk(chain, tenant, i);
    }
  }

  // ----- histories of appends by many tenants -----

  function RowFor(rows: seq<AuditRow>, event: AuditEvent): AuditRow {
    var chained := event.WithPreviousHash(LastHash(RowsOf(rows, event.tenant)));
    AuditRow(event.eventId, event.tenant, chained.eventHash, chained)
  }

  /** The rows after a sequence of accepted appends, in their commit order. */
  function AfterAppends(events: seq<AuditEvent>): seq<AuditRow> {
    if events == [] then [] else
      var before := AfterAppends(events[..|events| - 1]);
      before + [RowFor(before, events[|events| - 1])]
  }

  function EventsOf(events: seq<AuditEvent>, tenant: TenantId): seq<AuditEvent> {
    if events == [] then [] else
      EventsOf(events[..|events| - 1], tenant)
      + (if events[|events| - 1].tenant == tenant then [events[|events| - 1]] else [])
  }

  /** However the tenants' appends interleave, each tenant's chain is valid and holds exactly the
      tenant's own events in their order. */
  lemma {:induction false} EveryTenantVerifies(events: seq<AuditEvent>, tenant: TenantId)
    ensures var chain := RowsOf(AfterAppends(events), tenant);
            && ChainOk(chain, tenant)
            && |chain| == |EventsOf(events, tenant)|
            && forall i :: 0 <= i < |chain| ==>
                 chain[i].body == EventsOf(events, tenant)[i].WithPreviousHash(chain[i].body.previousHash)
  {
    hide Head, PreviousText, Letters;
    if events != [] {
      var n := |events| - 1;
      EveryTenantVerifies(events[..n], tenant);
      var before := AfterAppends(events[..n]);
      var row := RowFor(before, events[n]);
      assert (before + [row])[..|before + [row]| - 1] == before;
      if events[n].tenant == tenant {
        ChainGrows(RowsOf(before, tenant), tenant, row);
        assert RowsOf(before + [row], tenant) == RowsOf(before, tenant) + [row];
      } else {
        assert RowsOf(before + [row], tenant) == RowsOf(before, tenant);
      }
    }
  }

  lemma ChainGrows(chain: seq<AuditRow>, tenant: TenantId, row: AuditRow)
    requires ChainOk(chain, tenant) && row.body.tenant == tenant && row.eventHash == row.body.eventHash
    requires row.body.HasValidHash() && row.body.previousHash == LastHash(chain)
    ensures ChainOk(chain + [row], tenant)
  {
    hide Head, PreviousText, Letters;
    forall i | 0 <= i <= |chain| ensures LinkOk(chain + [row], tenant, i) {
      if i < |chain| {
        assert LinkOk(chain, tenant, i);
      } else if i > 0 {
        assert LinkOk(chain, tenant, i - 1);
      }
    }
  }

  // ----- what a chain commits to -----

  /** Two events agree on everything but the task. */
  predicate SameButTask(a: AuditEvent, b: AuditEvent) {
    a == b.(taskId := a.taskId)
  }

  /** Whatever valid chain of the tenant ends in the same hash records the same events, up to the task
      identifiers. */
  ghost predicate Committed(a: seq<AuditRow>, tenant: TenantId) {
    forall b :: ChainOk(b, tenant) && LastHash(b) == LastHash(a) ==> SameEvents(a, b)
  }

  predicate SameEvents(a: seq<AuditRow>, b: seq<AuditRow>) {
    |a| == |b| && forall i :: 0 <= i < |a| ==> SameButTask(a[i].body, b[i].body)
  }

  predicate PlainChain(a: seq<AuditRow>) {
    forall i :: 0 <= i < |a| ==> a[i].body.IsPlain()
  }

  // ----- the text determines a plain event -----

  predicate Linkable(previous: Option<Hash>) {
    previous.Some? ==> previous.value.Sha256Of?
  }

  lemma LettersDiffer(s: string, t: string)
    requires Letters(s) == Letters(t)
    ensures s == t
  {
    assert |s| == |Letters(s)| && |t| == |Letters(t)|;
    forall i | 0 <= i < |s| ensures s[i] == t[i] {
      assert Letters(s)[i] == Letters(t)[i];
    }
  }

  /** The printed previous hash is the part after the last separator. */
  lemma NoBarInPrevious(previous: Option<Hash>)
    requires Linkable(previous)
    ensures Letter('|') !in PreviousText(previous)
  {
  }

  lemma SplitPrevious(x: string, p: Option<Hash>, y: string, q: Option<Hash>)
    requires Linkable(p) && Linkable(q)
    requires Letters(x + "|") + PreviousText(p) == Letters(y + "|") + PreviousText(q)
    ensures x == y && p == q
  {
    var u, v := Letters(x + "|"), Letters(y + "|");
    NoBarInPrevious(p);
    NoBarInPrevious(q);
    LastBarAt(u, PreviousText(p), |x|);
    LastBarAt(v, PreviousText(q), |y|);
    assert (u + PreviousText(p))[..|u|] == u && (v + PreviousText(q))[..|v|] == v;
    assert (u + PreviousText(p))[|u|..] == PreviousText(p) && (v + PreviousText(q))[|v|..] == PreviousText(q);
    LettersDiffer(x + "|", y + "|");
    assert (x + "|")[..|x|] == x && (y + "|")[..|y|] == y;
    PreviousDiffer(p, q);
  }

  function LastBar(s: seq<Symbol>): int {
    if s == [] then -1 else if s[|s| - 1] == Letter('|') then |s| - 1 else LastBar(s[..|s| - 1])
  }

  lemma {:induction false} LastBarAt(u: seq<Symbol>, tail: seq<Symbol>, n: nat)
    requires |u| == n + 1 && u[n] == Letter('|') && Letter('|') !in tail
    ensures LastBar(u + tail) == n
    decreases |tail|
  {
    if tail == [] {
      assert u + tail == u;
    } else {
      var m := |tail| - 1;
      assert (u + tail)[..|u + tail| - 1] == u + tail[..m];
      LastBarAt(u, tail[..m], n);
    }
  }

  lemma PreviousDiffer(p: Option<Hash>, q: Option<Hash>)
    requires Linkable(p) && Linkable(q) && PreviousText(p) == PreviousText(q)
    ensures p == q
  {
    assert PreviousText(p)[0] == if p.None? then Letter('N') else Letter('S');
    assert PreviousText(q)[0] == if q.None? then Letter('N') else Letter('S');
    if p.Some? {
      assert PreviousText(p)[6] == Digits(p.value) && PreviousText(q)[6] == Digits(q.value);
    }
  }

  /** A plain event is read off its text, whatever event the text is compared with. */
  lemma TextDetermines(a: AuditEvent, b: AuditEvent)
    requires a.IsPlain() && Linkable(a.previousHash) && Linkable(b.previousHash)
    requires a.HashedText() == b.HashedText() && a.tenant == b.tenant && a.eventHash == b.eventHash
    ensures SameButTask(a, b)
  {
    hide Head, PreviousText, Letters, Plain;
    var x := Head(a.eventId, a.occurredAt, a.actor, a.action, a.outcome, a.metadata);
    var y := Head(b.eventId, b.occurredAt, b.actor, b.action, b.outcome, b.metadata);
    SplitPrevious(x, a.previousHash, y, b.previousHash);
    SplitHead(a.eventId, a.occurredAt, a.actor, a.action, a.outcome, a.metadata,
              b.eventId, b.occurredAt, b.actor, b.action, b.outcome, b.metadata);
  }

  lemma LinkIsLinkable(a: seq<AuditRow>, tenant: TenantId, i: nat)
    requires ChainOk(a, tenant) && i < |a|
    ensures LinkOk(a, tenant, i) && Linkable(a[i].body.previousHash)
  {
    hide Head, PreviousText, Letters;
    assert LinkOk(a, tenant, i);
    if i > 0 {
      assert LinkOk(a, tenant, i - 1);
    }
  }

  lemma {:induction false} PlainCommits(a: seq<AuditRow>, b: seq<AuditRow>, tenant: TenantId)
    requires ChainOk(a, tenant) && ChainOk(b, tenant) && LastHash(a) == LastHash(b) && PlainChain(a)
    ensures SameEvents(a, b)
  {
    hide Head, PreviousText, Letters;
    if a != [] && b != [] {
      var m, n := |a| - 1, |b| - 1;
      LinkIsLinkable(a, tenant, m);
      LinkIsLinkable(b, tenant, n);
      TextDetermines(a[m].body, b[n].body);
      ChainPrefix(a, tenant, m);
      ChainPrefix(b, tenant, n);
      PrefixHash(a, tenant);
      PrefixHash(b, tenant);
      PlainCommits(a[..m], b[..n], tenant);
      assert a == a[..m] + [a[m]] && b == b[..n] + [b[n]];
    }
  }

  lemma PrefixHash(a: seq<AuditRow>, tenant: TenantId)
    requires ChainOk(a, tenant) && a != []
    ensures LastHash(a[..|a| - 1]) == a[|a| - 1].body.previousHash
  {
    hide Head, PreviousText, Letters;
    var m := |a| - 1;
    assert LinkOk(a, tenant, m);
    if m > 0 {
      assert LinkOk(a, tenant, m - 1);
    }
  }

  // ----- a text with a separator in a free field has another reading -----

  /** Replace the body of one row, keeping its hash. */
  function Replaced(a: seq<AuditRow>, i: nat, body: AuditEvent): seq<AuditRow>
    requires i < |a|
  {
    a[i := a[i].(eventId := body.eventId, body := body)]
  }

  lemma ReplacedIsOk(a: seq<AuditRow>, tenant: TenantId, i: nat, body: AuditEvent)
    requires ChainOk(a, tenant) && i < |a|
    requires body.HashedText() == a[i].body.HashedText() && body.eventHash == a[i].body.eventHash
    requires body.previousHash == a[i].body.previousHash && body.tenant == a[i].body.tenant
    ensures ChainOk(Replaced(a, i, body), tenant) && LastHash(Replaced(a, i, body)) == LastHash(a)
  {
    hide Head, PreviousText, Letters;
    var b := Replaced(a, i, body);
    forall k | 0 <= k < |b| ensures LinkOk(b, tenant, k) {
      assert LinkOk(a, tenant, k);
    }
  }

  lemma Twin(e: AuditEvent) returns (f: AuditEvent)
    requires !e.IsPlain()
    ensures !SameButTask(e, f) && f.HashedText() == e.HashedText() && f.eventHash == e.eventHash
    ensures f.previousHash == e.previousHash && f.tenant == e.tenant
  {
    var x, y, z := OtherReading(e.actor, e.action, e.outcome);
    HeadOfMiddle(e.eventId, e.occurredAt, e.actor, e.action, e.outcome, x, y, z, e.metadata);
    f := e.(actor := x, action := y, outcome := z);
    hide Head, PreviousText, Letters;
  }

  /** The last hash of a valid chain fixes its events, up to the task identifiers, exactly when no
      actor, action or outcome in the chain contains the separator. */
  lemma ChainCommitment(a: seq<AuditRow>, tenant: TenantId)
    requires ChainOk(a, tenant)
    ensures Committed(a, tenant) <==> PlainChain(a)
  {
    hide ChainOk, LastHash, SameButTask;
    if PlainChain(a) {
      forall b | ChainOk(b, tenant) && LastHash(b) == LastHash(a) ensures SameEvents(a, b) {
        PlainCommits(a, b, tenant);
      }
    } else {
      var i :| 0 <= i < |a| && !a[i].body.IsPlain();
      var f := Twin(a[i].body);
      ReplacedIsOk(a, tenant, i, f);
      var b := Replaced(a, i, f);
      assert !SameButTask(a[i].body, b[i].body);
      assert !SameEvents(a, b);
    }
  }

  /** The task identifier is never fixed: changing it alone keeps a valid chain and its last hash. */
  lemma TasksAreNotCommitted(a: seq<AuditRow>, tenant: TenantId, i: nat, task: Option<TaskId>)
    requires ChainOk(a, tenant) && i < |a|
    ensures var b := Replaced(a, i, a[i].body.(taskId := task));
            ChainOk(b, tenant) && LastHash(b) == LastHash(a) && SameEvents(a, b) && b[i].body.taskId == task
  {
    hide Head, PreviousText, Letters;
    ReplacedIsOk(a, tenant, i, a[i].body.(taskId := task));
  }

  /** Two different events with one hash, each the whole of a chain that verifies. */
  lemma SeparatorsCollide(tenant: TenantId, id: Word, at: Word, outcome: string, m: Metadata)
    ensures var blank := AuditEvent(id, None, tenant, "", "", outcome, at, m, None, HashText(""));
            var e := blank.(actor := "a|b", action := "c").WithPreviousHash(None);
            var f := blank.(actor := "a", action := "b|c").WithPreviousHash(None);
            && e != f && e.eventHash == f.eventHash
            && ChainOk([AuditRow(id, tenant, e.eventHash, e)], tenant)
            && ChainOk([AuditRow(id, tenant, f.eventHash, f)], tenant)
  {
    assert "a|b" + "|" + "c" == "a" + "|" + "b|c";
    HeadOfMiddle(id, at, "a|b", "c", outcome, "a", "b|c", outcome, m);
    hide Head, PreviousText, Letters;
    assert "a|b"[1] == '|' && |"a"| == 1;
  }
}
