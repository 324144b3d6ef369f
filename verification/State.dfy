/** The durable store (scr/state.py) as the rows of its sessions.

    Every operation of the kernel is a list of single-row writes (`Write`), so that a crash
    can fall between any two of them. Hash-built identifiers (idempotency keys, approval ids)
    and JSON texts are injective encodings and are modelled by the data they encode. */
module State {
  import opened Basics

  /** Where a call came from: the journal seq of the model call it answered and its place in
      that response. History only: no operation reads it. */
  datatype Ref = Ref(response: nat, index: nat)

  datatype Call = Call(id: string, name: string, args: string, ref: Ref)

  datatype IdemKey = IdemKey(sid: string, seqNo: nat, tool: string, args: string)

  datatype ApprovalId = ApprovalId(sid: string, tool: string, args: string, callId: string)

  datatype Decision = Decision(approved: bool, approver: string)

  datatype Record =
    | Assemble
    | ModelIntent(iteration: nat)
    | ModelDone(iteration: nat, intentSeq: nat, toolCalls: nat)
    | ExecIntent(tool: string, args: string, idempotent: bool, key: IdemKey)
    | ExecDone(intentSeq: nat, key: IdemKey, recovered: bool)
    | Awaiting(aid: ApprovalId, tool: string, args: string, pending: seq<Call>)
    | Cancelled(atCall: string)
    | Finalized(iteration: nat)
    | Stopped(reason: string)
    | Recovered(action: string)
    | NeedsReview(tool: string, key: IdemKey)

  datatype Message =
    | UserMsg(text: string)
    | AssistantMsg(text: string)
    | ToolMsg(tool: string, id: string, result: string)

  datatype Event =
    | ModelCalled(iteration: nat, text: string, toolNames: seq<string>, inTokens: nat, outTokens: nat)
    | ModelRetried(iteration: nat, attempt: nat, error: string)
    | ModelFailed(iteration: nat, error: string)
    | FinalizeRefused(reason: string)
    | FinalizeLogged(iteration: nat)
    | StopLogged(reason: string)
    | ApprovalRequired(tool: string, aid: ApprovalId)
    | ApprovalDeniedExec(tool: string, aid: ApprovalId, approver: string)
    | ApprovalGrantedExec(tool: string, aid: ApprovalId, approver: string)
    | ApprovalLogged(aid: ApprovalId, decision: Decision)
    | CapDenied(tool: string, reason: string)
    | ToolExec(tool: string, args: string, result: string, key: IdemKey, parallel: bool)
    | ToolError(tool: string, result: string)
    | PolicyDeclared(agent: string)
    | GrantContext(agent: string)
    | Delegated(parent: string, child: string, depth: nat)
    | DelegateDenied(child: string, reason: string)
    | PolicyLogged(child: string, rule: string, verdict: string)
    | MailLogged(sender: string, recipient: string, direction: string, body: string)

  /** The rows of one session. The journal record with seq n is `journal[n-1]`. */
  datatype Session = Session(
    sid: string,
    status: string,
    messages: seq<Message>,
    journal: seq<Record>,
    ledger: seq<Event>,
    results: map<IdemKey, string>,
    approvals: map<ApprovalId, Decision>)

  function FreshSession(sid: string): Session {
    Session(sid, "open", [], [], [], map[], map[])
  }

  datatype Write =
    | Journal(rec: Record)
    | Post(msg: Message)
    | Log(event: Event)
    | PutResult(key: IdemKey, result: string)
    | PutApproval(aid: ApprovalId, decision: Decision)
    | SetStatus(status: string)

  /** One committed statement. Results and approvals are INSERT OR IGNORE. */
  function Apply(s: Session, w: Write): Session {
    match w
    case Journal(rec) => s.(journal := s.journal + [rec])
    case Post(msg) => s.(messages := s.messages + [msg])
    case Log(event) => s.(ledger := s.ledger + [event])
    case PutResult(key, result) =>
      if key in s.results then s else s.(results := s.results[key := result])
    case PutApproval(aid, decision) =>
      if aid.sid != s.sid || aid in s.approvals then s else s.(approvals := s.approvals[aid := decision])
    case SetStatus(status) => s.(status := status)
  }

  function ApplyAll(s: Session, ws: seq<Write>): Session
    decreases |ws|
  {
    if ws == [] then s else ApplyAll(Apply(s, ws[0]), ws[1..])
  }

  lemma {:induction false} ApplyAllConcat(s: Session, a: seq<Write>, b: seq<Write>)
    ensures ApplyAll(s, a + b) == ApplyAll(ApplyAll(s, a), b)
    decreases |a|
  {
    if a == [] {
      assert a + b == b;
    } else {
      assert (a + b)[1..] == a[1..] + b;
      ApplyAllConcat(Apply(s, a[0]), a[1..], b);
    }
  }

  lemma ApplyNone(s: Session)
    ensures ApplyAll(s, []) == s
  {
  }

  lemma ApplyOne(s: Session, a: Write)
    ensures ApplyAll(s, [a]) == Apply(s, a)
  {
    assert [a][1..] == [];
  }

  lemma ApplyTwo(s: Session, a: Write, b: Write)
    ensures ApplyAll(s, [a, b]) == Apply(Apply(s, a), b)
  {
    assert [a, b] == [a] + [b];
    ApplyAllConcat(s, [a], [b]);
    ApplyOne(s, a);
    ApplyOne(Apply(s, a), b);
  }

  lemma ApplyThree(s: Session, a: Write, b: Write, c: Write)
    ensures ApplyAll(s, [a, b, c]) == Apply(Apply(Apply(s, a), b), c)
  {
    assert [a, b, c] == [a] + [b, c];
    ApplyAllConcat(s, [a], [b, c]);
    ApplyOne(s, a);
    ApplyTwo(Apply(s, a), b, c);
  }

  function Tail(s: Session): Option<Record> {
    if s.journal == [] then None else Some(s.journal[|s.journal| - 1])
  }

  /** A first decision, once recorded, survives every later sequence of writes unchanged. */
  lemma {:induction false} FirstDecisionIsFinal(s: Session, ws: seq<Write>, aid: ApprovalId)
    requires aid in s.approvals
    ensures aid in ApplyAll(s, ws).approvals
    ensures ApplyAll(s, ws).approvals[aid] == s.approvals[aid]
    decreases |ws|
  {
    if ws != [] {
      FirstDecisionIsFinal(Apply(s, ws[0]), ws[1..], aid);
    }
  }

  function ResultsOf(results: map<IdemKey, string>, sid: string): map<IdemKey, string> {
    map k | k in results && k.sid == sid :: results[k]
  }

  function ApprovalsOf(approvals: map<ApprovalId, Decision>, sid: string): map<ApprovalId, Decision> {
    map a | a in approvals && a.sid == sid :: approvals[a]
  }

  lemma ResultsOfPut(results: map<IdemKey, string>, key: IdemKey, result: string)
    requires key !in results
    ensures ResultsOf(results[key := result], key.sid) == ResultsOf(results, key.sid)[key := result]
    ensures forall sid :: sid != key.sid ==> ResultsOf(results[key := result], sid) == ResultsOf(results, sid)
  {
  }

  lemma ApprovalsOfPut(approvals: map<ApprovalId, Decision>, aid: ApprovalId, d: Decision)
    requires aid !in approvals
    ensures ApprovalsOf(approvals[aid := d], aid.sid) == ApprovalsOf(approvals, aid.sid)[aid := d]
    ensures forall sid :: sid != aid.sid ==> ApprovalsOf(approvals[aid := d], sid) == ApprovalsOf(approvals, sid)
  {
  }

  lemma ResultsOfOwn(results: map<IdemKey, string>, key: IdemKey)
    ensures key in ResultsOf(results, key.sid) <==> key in results
    ensures key in results ==> ResultsOf(results, key.sid)[key] == results[key]
  {
  }

  lemma ApprovalsOfOwn(approvals: map<ApprovalId, Decision>, aid: ApprovalId)
    ensures aid in ApprovalsOf(approvals, aid.sid) <==> aid in approvals
    ensures aid in approvals ==> ApprovalsOf(approvals, aid.sid)[aid] == approvals[aid]
  {
  }

  /** The tables of the database, all sessions together. */
  class Store {
    var statuses: map<string, string>
    var messages: map<string, seq<Message>>
    var journal: map<string, seq<Record>>
    var ledger: map<string, seq<Event>>
    var results: map<IdemKey, string>
    var approvals: map<ApprovalId, Decision>

    /** The rows that belong to one session. */
    function View(sid: string): (s: Session)
      reads this
      ensures s.sid == sid
    {
      Session(sid,
              if sid in statuses then statuses[sid] else "open",
              if sid in messages then messages[sid] else [],
              if sid in journal then journal[sid] else [],
              if sid in ledger then ledger[sid] else [],
              ResultsOf(results, sid),
              ApprovalsOf(approvals, sid))
    }

    /** A session journals intents under keys of its own. */
    ghost predicate Valid()
      reads this
    {
      forall sid, i :: sid in journal && 0 <= i < |journal[sid]| && journal[sid][i].ExecIntent? ==>
        journal[sid][i].key.sid == sid
    }

    constructor ()
      ensures Valid()
      ensures forall sid :: View(sid) == FreshSession(sid)
    {
      statuses, messages, journal, ledger := map[], map[], map[], map[];
      results, approvals := map[], map[];
    }

    method SetSessionStatus(sid: string, status: string)
      requires Valid()
      modifies this
      ensures Valid()
      ensures View(sid) == Apply(old(View(sid)), SetStatus(status))
      ensures forall other :: other != sid ==> View(other) == old(View(other))
    {
      statuses := statuses[sid := status];
    }

    method AddMessage(sid: string, msg: Message)
      requires Valid()
      modifies this
      ensures Valid()
      ensures View(sid) == Apply(old(View(sid)), Post(msg))
      ensures forall other :: other != sid ==> View(other) == old(View(other))
    {
      messages := messages[sid := (if sid in messages then messages[sid] else []) + [msg]];
    }

    /** Returns the new record's seq, one more than the largest so far. */
    method JournalAppend(sid: string, rec: Record) returns (seqNo: nat)
      requires Valid() && (rec.ExecIntent? ==> rec.key.sid == sid)
      modifies this
      ensures Valid()
      ensures View(sid) == Apply(old(View(sid)), Journal(rec))
      ensures seqNo == |View(sid).journal|
      ensures forall other :: other != sid ==> View(other) == old(View(other))
    {
      var rows := if sid in journal then journal[sid] else [];
      seqNo := |rows| + 1;
      journal := journal[sid := rows + [rec]];
    }

    method JournalTail(sid: string) returns (tail: Option<Record>, seqNo: nat)
      requires Valid()
      ensures tail.Some? && tail.value.ExecIntent? ==> tail.value.key.sid == sid
      ensures tail == Tail(View(sid))
      ensures seqNo == |View(sid).journal|
    {
      var rows := if sid in journal then journal[sid] else [];
      seqNo := |rows|;
      tail := if rows == [] then None else Some(rows[|rows| - 1]);
    }

    method LedgerAppend(sid: string, event: Event)
      requires Valid()
      modifies this
      ensures Valid()
      ensures View(sid) == Apply(old(View(sid)), Log(event))
      ensures forall other :: other != sid ==> View(other) == old(View(other))
    {
      ledger := ledger[sid := (if sid in ledger then ledger[sid] else []) + [event]];
    }

    method ToolResultGet(key: IdemKey) returns (r: Option<string>)
      ensures r.Some? <==> key in View(key.sid).results
      ensures r.Some? ==> r.value == View(key.sid).results[key]
    {
      r := if key in results then Some(results[key]) else None;
    }

    method ToolResultPut(key: IdemKey, result: string)
      requires Valid()
      modifies this
      ensures Valid()
      ensures View(key.sid) == Apply(old(View(key.sid)), PutResult(key, result))
      ensures forall other :: other != key.sid ==> View(other) == old(View(other))
    {
      hide ResultsOf, ApprovalsOf;
      ResultsOfOwn(results, key);
      if key !in results {
        ResultsOfPut(results, key, result);
        results := results[key := result];
      }
    }

    method ApprovalGet(aid: ApprovalId) returns (r: Option<Decision>)
      ensures r.Some? <==> aid in View(aid.sid).approvals
      ensures r.Some? ==> r.value == View(aid.sid).approvals[aid]
    {
      r := if aid in approvals then Some(approvals[aid]) else None;
    }

    method ApprovalPut(aid: ApprovalId, decision: Decision)
      requires Valid()
      modifies this
      ensures Valid()
      ensures forall sid :: View(sid) == Apply(old(View(sid)), PutApproval(aid, decision))
    {
      hide ResultsOf, ApprovalsOf;
      ApprovalsOfOwn(approvals, aid);
      if aid !in approvals {
        ApprovalsOfPut(approvals, aid, decision);
        approvals := approvals[aid := decision];
      }
    }
  }
}
