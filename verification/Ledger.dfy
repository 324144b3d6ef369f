/** The tamper-evident ledger (scr/ledger.py), the standalone verifier that walks the same chain from
    the stored texts (scr/_evidence_verifier.py), and team evidence bundles (scr/evidence.py).

    The hash, the MAC and the canonical JSON encoding are parameters. Collision-freedom is asked
    only of the strings hashed for the chains at hand. */
module Ledger {
  import opened Basics

  type Hash = string -> string

  datatype Row = Row(seqNo: int, event: string, hash: string)

  const HEX := 64

  const GENESIS: string := Repeat('0', HEX)

  function Input(prev: string, text: string): string {
    prev + text
  }

  // ------------------------------------------------------- what a good chain is

  function Prev(rows: seq<Row>, i: nat): string
    requires i <= |rows|
  {
    if i == 0 then GENESIS else rows[i - 1].hash
  }

  function Head(rows: seq<Row>): string {
    Prev(rows, |rows|)
  }

  /** The seq of the last row. */
  function HeadSeq(rows: seq<Row>): int {
    if rows == [] then 0 else rows[|rows| - 1].seqNo
  }

  /** What was hashed for row i. */
  function InputAt(rows: seq<Row>, i: nat): string
    requires i < |rows|
  {
    Input(Prev(rows, i), rows[i].event)
  }

  predicate RowOk(h: Hash, rows: seq<Row>, i: nat)
    requires i < |rows|
  {
    rows[i].seqNo == i + 1 && rows[i].hash == h(InputAt(rows, i))
  }

  predicate ValidChain(h: Hash, rows: seq<Row>) {
    forall i :: 0 <= i < |rows| ==> RowOk(h, rows, i)
  }

  /** Row i is the first that does not check out. */
  predicate BreaksAt(h: Hash, rows: seq<Row>, i: nat) {
    i < |rows| && !RowOk(h, rows, i) && forall j :: 0 <= j < i ==> RowOk(h, rows, j)
  }

  // ------------------------------------------------------------------ appending

  function Extend(h: Hash, rows: seq<Row>, text: string): seq<Row> {
    rows + [Row(HeadSeq(rows) + 1, text, h(Input(Head(rows), text)))]
  }

  lemma HeadSeqCounts(h: Hash, rows: seq<Row>)
    requires ValidChain(h, rows)
    ensures HeadSeq(rows) == |rows|
  {
    if rows != [] {
      assert RowOk(h, rows, |rows| - 1);
    }
  }

  lemma ExtendKeepsValid(h: Hash, rows: seq<Row>, text: string)
    requires ValidChain(h, rows)
    ensures ValidChain(h, Extend(h, rows, text))
  {
    HeadSeqCounts(h, rows);
    var rows' := Extend(h, rows, text);
    forall i | 0 <= i < |rows'|
      ensures RowOk(h, rows', i)
    {
      assert Prev(rows', i) == Prev(rows, i);
      if i < |rows| {
        assert RowOk(h, rows, i);
      }
    }
  }

  function Build(h: Hash, texts: seq<string>): seq<Row> {
    if texts == [] then [] else Extend(h, Build(h, texts[..|texts| - 1]), texts[|texts| - 1])
  }

  /** A chain built by appends verifies, and holds the appended texts in order. */
  lemma {:induction false} BuiltChainsAreValid(h: Hash, texts: seq<string>)
    ensures ValidChain(h, Build(h, texts))
    ensures |Build(h, texts)| == |texts|
    ensures forall i :: 0 <= i < |texts| ==> Build(h, texts)[i].event == texts[i]
    decreases |texts|
  {
    if texts != [] {
      BuiltChainsAreValid(h, texts[..|texts| - 1]);
      ExtendKeepsValid(h, Build(h, texts[..|texts| - 1]), texts[|texts| - 1]);
    }
  }

  // ------------------------------------------------------------------- binding

  function Inputs(rows: seq<Row>): set<string> {
    set i | 0 <= i < |rows| :: InputAt(rows, i)
  }

  /** On these strings the hash has no collision and yields HEX characters. */
  predicate GoodOn(h: Hash, inputs: set<string>) {
    && (forall x, y :: x in inputs && y in inputs && h(x) == h(y) ==> x == y)
    && (forall x :: x in inputs ==> |h(x)| == HEX)
  }

  lemma PrevLength(h: Hash, rows: seq<Row>, i: nat, inputs: set<string>)
    requires ValidChain(h, rows) && i <= |rows| && Inputs(rows) <= inputs && GoodOn(h, inputs)
    ensures |Prev(rows, i)| == HEX
  {
    if i > 0 {
      assert RowOk(h, rows, i - 1);
      assert InputAt(rows, i - 1) in Inputs(rows);
    }
  }

  lemma InputInjective(p: string, s: string, q: string, t: string)
    requires |p| == |q| && Input(p, s) == Input(q, t)
    ensures p == q && s == t
  {
    assert Input(p, s)[..|p|] == p && Input(q, t)[..|q|] == q;
    assert Input(p, s)[|p|..] == s && Input(q, t)[|q|..] == t;
  }

  lemma ValidPrefix(h: Hash, rows: seq<Row>, n: nat)
    requires ValidChain(h, rows) && n <= |rows|
    ensures ValidChain(h, rows[..n]) && Inputs(rows[..n]) <= Inputs(rows) && Head(rows[..n]) == Prev(rows, n)
  {
    var init := rows[..n];
    forall i | 0 <= i < n
      ensures RowOk(h, init, i) && InputAt(init, i) in Inputs(rows)
    {
      assert RowOk(h, rows, i) && InputAt(init, i) == InputAt(rows, i);
    }
  }

  /** The last rows of two accepted chains with the same head agree, and so do the heads before. */
  lemma LastRowsAgree(h: Hash, a: seq<Row>, b: seq<Row>, inputs: set<string>)
    requires a != [] && b != [] && ValidChain(h, a) && ValidChain(h, b) && Head(a) == Head(b)
    requires Inputs(a) + Inputs(b) <= inputs && GoodOn(h, inputs)
    ensures Prev(a, |a| - 1) == Prev(b, |b| - 1) && a[|a| - 1].event == b[|b| - 1].event
    ensures a[|a| - 1].hash == b[|b| - 1].hash && a[|a| - 1].seqNo == |a| && b[|b| - 1].seqNo == |b|
  {
    var m, n := |a| - 1, |b| - 1;
    assert RowOk(h, a, m) && RowOk(h, b, n);
    assert InputAt(a, m) in Inputs(a) && InputAt(b, n) in Inputs(b);
    PrevLength(h, a, m, inputs);
    PrevLength(h, b, n, inputs);
    InputInjective(Prev(a, m), a[m].event, Prev(b, n), b[n].event);
  }

  lemma HeadIsHashed(h: Hash, rows: seq<Row>) returns (x: string)
    requires rows != [] && ValidChain(h, rows)
    ensures x in Inputs(rows) && h(x) == Head(rows)
  {
    hide InputAt;
    var n := |rows| - 1;
    assert RowOk(h, rows, n);
    x := InputAt(rows, n);
  }

  /** Two accepted chains with the same head are the same, row for row: their lengths need not be
      compared when no hashed string has the genesis value as its hash. */
  lemma {:induction false} HeadBindsChain(h: Hash, a: seq<Row>, b: seq<Row>, inputs: set<string>)
    requires ValidChain(h, a) && ValidChain(h, b) && Head(a) == Head(b)
    requires Inputs(a) + Inputs(b) <= inputs && GoodOn(h, inputs)
    requires |a| == |b| || forall x :: x in inputs ==> h(x) != GENESIS
    ensures a == b
    decreases |a|
  {
    hide Inputs, GoodOn, ValidChain, Input;
    if a == [] || b == [] {
      if a != [] {
        var _ := HeadIsHashed(h, a);
      }
      if b != [] {
        var _ := HeadIsHashed(h, b);
      }
    } else {
      var m, n := |a| - 1, |b| - 1;
      LastRowsAgree(h, a, b, inputs);
      ValidPrefix(h, a, m);
      ValidPrefix(h, b, n);
      HeadBindsChain(h, a[..m], b[..n], inputs);
      assert a == a[..m] + [a[m]] && b == b[..n] + [b[n]];
    }
  }

  // --------------------------------------------------------------- localization

  /** Editing the text of one row only is reported at that row. */
  lemma EditIsReportedThere(h: Hash, rows: seq<Row>, i: nat, text: string)
    requires ValidChain(h, rows) && i < |rows| && text != rows[i].event
    requires GoodOn(h, {Input(Prev(rows, i), rows[i].event), Input(Prev(rows, i), text)})
    ensures BreaksAt(h, rows[i := rows[i].(event := text)], i)
  {
    var edited := rows[i := rows[i].(event := text)];
    assert RowOk(h, rows, i) && Prev(edited, i) == Prev(rows, i);
    if h(Input(Prev(rows, i), text)) == rows[i].hash {
      InputInjective(Prev(rows, i), text, Prev(rows, i), rows[i].event);
    }
    forall j | 0 <= j < i
      ensures RowOk(h, edited, j)
    {
      assert RowOk(h, rows, j) && Prev(edited, j) == Prev(rows, j);
    }
  }

  /** Editing a row and recomputing its hash moves the report to the next row; at the last row the
      chain still verifies, with another head, so only a seal can tell. */
  lemma RehashedEditIsReportedNext(h: Hash, rows: seq<Row>, i: nat, text: string)
    requires ValidChain(h, rows) && i < |rows| && text != rows[i].event
    requires var forged := h(Input(Prev(rows, i), text));
      && GoodOn(h, {Input(Prev(rows, i), rows[i].event), Input(Prev(rows, i), text)})
      && (i + 1 < |rows| ==>
            GoodOn(h, {Input(forged, rows[i + 1].event), Input(rows[i].hash, rows[i + 1].event)}))
    ensures var edited := rows[i := Row(i + 1, text, h(Input(Prev(rows, i), text)))];
      if i + 1 < |rows| then BreaksAt(h, edited, i + 1)
      else ValidChain(h, edited) && Head(edited) != Head(rows)
  {
    var forged := h(Input(Prev(rows, i), text));
    var edited := rows[i := Row(i + 1, text, forged)];
    assert RowOk(h, rows, i);
    if forged == rows[i].hash {
      InputInjective(Prev(rows, i), text, Prev(rows, i), rows[i].event);
    }
    forall j | 0 <= j <= i
      ensures RowOk(h, edited, j)
    {
      assert RowOk(h, rows, j) && Prev(edited, j) == Prev(rows, j);
    }
    if i + 1 < |rows| {
      assert RowOk(h, rows, i + 1);
      if RowOk(h, edited, i + 1) {
        InputInjective(forged, rows[i + 1].event, rows[i].hash, rows[i + 1].event);
      }
    }
  }

  /** Deleting a row that is not the last leaves a sequence gap at its place; swapping two
      neighbours does so at the first of them. */
  lemma DeletionAndReorderingLeaveAGap(h: Hash, rows: seq<Row>, i: nat)
    requires ValidChain(h, rows) && i + 1 < |rows|
    ensures BreaksAt(h, rows[..i] + rows[i + 1..], i)
    ensures BreaksAt(h, rows[i := rows[i + 1]][i + 1 := rows[i]], i)
  {
    var cut, swapped := rows[..i] + rows[i + 1..], rows[i := rows[i + 1]][i + 1 := rows[i]];
    assert RowOk(h, rows, i + 1);
    forall j | 0 <= j < i
      ensures RowOk(h, cut, j) && RowOk(h, swapped, j)
    {
      assert RowOk(h, rows, j) && Prev(cut, j) == Prev(rows, j) && Prev(swapped, j) == Prev(rows, j);
    }
  }

  // ------------------------------------------------------- the standalone verifier

  datatype ChainError = SequenceGap | ChainBreak | Unparseable

  datatype ChainReport = ChainReport(head: string, count: nat, error: Option<ChainError>)

  /** `recompute_chain`: the chain as stored texts. */
  method RecomputeChain(h: Hash, rows: seq<Row>) returns (r: ChainReport)
    ensures r.error.None? <==> ValidChain(h, rows)
    ensures r.error.None? ==> r.head == Head(rows) && r.count == |rows|
    ensures r.error.Some? ==> BreaksAt(h, rows, r.count) && r.head == Prev(rows, r.count)
    ensures r.error.Some? ==> r.error.value == if rows[r.count].seqNo != r.count + 1 then SequenceGap else ChainBreak
  {
    var prev, expected := GENESIS, 1;
    for i := 0 to |rows|
      invariant expected == i + 1 && prev == Prev(rows, i)
      invariant forall j :: 0 <= j < i ==> RowOk(h, rows, j)
    {
      if rows[i].seqNo != expected {
        assert !RowOk(h, rows, i);
        return ChainReport(prev, expected - 1, Some(SequenceGap));
      }
      var recomputed := h(Input(prev, rows[i].event));
      if recomputed != rows[i].hash {
        assert !RowOk(h, rows, i);
        return ChainReport(prev, expected - 1, Some(ChainBreak));
      }
      prev, expected := recomputed, expected + 1;
    }
    return ChainReport(prev, |rows|, None);
  }

  // ----------------------------------------------------------- the runtime ledger

  /** Events as values: `canonical` writes one out, `parse` reads a stored text back. */
  datatype Json<!E> = Json(canonical: E -> string, parse: string -> Option<E>)

  datatype Seal = Seal(head: string, count: int, mac: string)

  type Mac = (string, string, int) -> string

  datatype LedgerError = BadRow(error: ChainError, at: int) | SealMismatch | SealForged

  datatype VerifyResult = VerifyResult(count: nat, head: string, error: Option<LedgerError>)

  /** The text the runtime hashes for a row: the parsed event written out again. */
  predicate RowVerifies<E>(h: Hash, json: Json<E>, rows: seq<Row>, i: nat)
    requires i < |rows|
  {
    var event := json.parse(rows[i].event);
    rows[i].seqNo == i + 1 && event.Some? && rows[i].hash == h(Input(Prev(rows, i), json.canonical(event.value)))
  }

  predicate ChainVerifies<E>(h: Hash, json: Json<E>, rows: seq<Row>) {
    forall i :: 0 <= i < |rows| ==> RowVerifies(h, json, rows, i)
  }

  /** Row i is the first the runtime's verifier refuses. */
  predicate FailsFirst<E>(h: Hash, json: Json<E>, rows: seq<Row>, i: nat) {
    i < |rows| && !RowVerifies(h, json, rows, i) && forall j :: 0 <= j < i ==> RowVerifies(h, json, rows, j)
  }

  function RowError<E>(json: Json<E>, rows: seq<Row>, i: nat): LedgerError
    requires i < |rows|
  {
    BadRow(if rows[i].seqNo != i + 1 then SequenceGap
           else if json.parse(rows[i].event).None? then Unparseable
           else ChainBreak, rows[i].seqNo)
  }

  predicate SealHolds(mac: Mac, rows: seq<Row>, seal: Option<Seal>, key: Option<string>) {
    seal.Some? ==>
      && seal.value.head == Head(rows) && seal.value.count == |rows|
      && (key.Some? ==> mac(key.value, Head(rows), |rows|) == seal.value.mac)
  }

  class Ledger<E> {
    const hash: Hash
    const json: Json<E>
    const mac: Mac
    var rows: seq<Row>
    var seal: Option<Seal>

    constructor (hash: Hash, json: Json<E>, mac: Mac)
      ensures this.hash == hash && this.json == json && this.mac == mac
      ensures rows == [] && seal == None
    {
      this.hash, this.json, this.mac := hash, json, mac;
      rows, seal := [], None;
    }

    /** The row goes after whatever is there; a valid chain stays valid. */
    method Append(event: E) returns (newHash: string)
      modifies this
      ensures rows == Extend(hash, old(rows), json.canonical(event)) && seal == old(seal)
      ensures newHash == Head(rows)
      ensures ValidChain(hash, old(rows)) ==> ValidChain(hash, rows)
      ensures ChainVerifies(hash, json, old(rows)) && RoundTrips(json, event) ==> ChainVerifies(hash, json, rows)
    {
      var prev, seqNo := GENESIS, 0;
      if rows != [] {
        prev, seqNo := rows[|rows| - 1].hash, rows[|rows| - 1].seqNo;
      }
      var text := json.canonical(event);
      if ValidChain(hash, rows) {
        ExtendKeepsValid(hash, rows, text);
      }
      if ChainVerifies(hash, json, rows) && RoundTrips(json, event) {
        ExtendKeepsVerifying(hash, json, rows, event);
      }
      newHash := hash(Input(prev, text));
      rows := rows + [Row(seqNo + 1, text, newHash)];
    }

    /** Seals the chain as it stands; of a valid chain the seal then holds, under its own key. */
    method SealIt(key: string) returns (m: string)
      modifies this
      ensures rows == old(rows) && m == mac(key, Head(rows), HeadSeq(rows))
      ensures seal == Some(Seal(Head(rows), HeadSeq(rows), m))
      ensures ValidChain(hash, rows) || ChainVerifies(hash, json, rows) ==> SealHolds(mac, rows, seal, Some(key))
    {
      if ValidChain(hash, rows) {
        HeadSeqCounts(hash, rows);
      }
      if ChainVerifies(hash, json, rows) {
        RuntimeSeqCounts(hash, json, rows);
      }
      m := mac(key, Head(rows), HeadSeq(rows));
      seal := Some(Seal(Head(rows), HeadSeq(rows), m));
    }

    /** The verdict, and on a refusal the first bad row with what is wrong with it, or else what is
        wrong with the seal. */
    method Verify(key: Option<string>) returns (r: VerifyResult)
      ensures r.count == |rows|
      ensures r.error.None? <==> ChainVerifies(hash, json, rows) && SealHolds(mac, rows, seal, key)
      ensures ChainVerifies(hash, json, rows) ==> r.head == Head(rows)
      ensures r.error.Some? && r.error.value.BadRow? <==> !ChainVerifies(hash, json, rows)
      ensures r.error.Some? && r.error.value.BadRow? ==>
        exists i ::
          && FailsFirst(hash, json, rows, i) && r.head == Prev(rows, i) && r.error.value == RowError(json, rows, i)
      ensures r.error == Some(SealMismatch) <==>
        ChainVerifies(hash, json, rows) && seal.Some? && (seal.value.head != Head(rows) || seal.value.count != |rows|)
      ensures r.error == Some(SealForged) <==>
        && ChainVerifies(hash, json, rows) && seal.Some? && seal.value.head == Head(rows) && seal.value.count == |rows|
        && key.Some? && mac(key.value, seal.value.head, seal.value.count) != seal.value.mac
      ensures r.error.None? && seal.Some? && key.Some? ==>
        mac(key.value, seal.value.head, seal.value.count) == seal.value.mac
    {
      var prev, expected := GENESIS, 1;
      for i := 0 to |rows|
        invariant expected == i + 1 && prev == Prev(rows, i)
        invariant forall j :: 0 <= j < i ==> RowVerifies(hash, json, rows, j)
      {
        var row := rows[i];
        if row.seqNo != expected {
          assert FailsFirst(hash, json, rows, i);
          return VerifyResult(|rows|, prev, Some(BadRow(SequenceGap, row.seqNo)));
        }
        var event := json.parse(row.event);
        if event.None? {
          assert FailsFirst(hash, json, rows, i);
          return VerifyResult(|rows|, prev, Some(BadRow(Unparseable, row.seqNo)));
        }
        var recomputed := hash(Input(prev, json.canonical(event.value)));
        if recomputed != row.hash {
          assert FailsFirst(hash, json, rows, i);
          return VerifyResult(|rows|, prev, Some(BadRow(ChainBreak, row.seqNo)));
        }
        prev, expected := recomputed, expected + 1;
      }
      var head, count := prev, |rows|;
      if seal.Some? {
        if seal.value.head != head || seal.value.count != count {
          return VerifyResult(count, head, Some(SealMismatch));
        }
        if key.Some? && mac(key.value, head, count) != seal.value.mac {
          return VerifyResult(count, head, Some(SealForged));
        }
      }
      return VerifyResult(count, head, None);
    }
  }

  // ------------------------------------------------- what the runtime's verifier reports

  /** The text the runtime's verifier hashes in place of a stored text that parses. */
  function ReadAs<E>(json: Json<E>, text: string): string {
    var event := json.parse(text);
    if event.None? then text else json.canonical(event.value)
  }

  /** The rows as the runtime's verifier reads them. */
  function Rewritten<E>(json: Json<E>, rows: seq<Row>): (r: seq<Row>)
    ensures |r| == |rows|
  {
    seq(|rows|, i requires 0 <= i < |rows| => rows[i].(event := ReadAs(json, rows[i].event)))
  }

  /** It accepts the rows exactly when their texts parse and the standalone verifier would accept the
      rewritten rows; hashes, and so heads, are the stored ones. */
  lemma RuntimeReadsRewritten<E>(h: Hash, json: Json<E>, rows: seq<Row>)
    ensures ChainVerifies(h, json, rows) <==>
      ValidChain(h, Rewritten(json, rows)) && forall i :: 0 <= i < |rows| ==> json.parse(rows[i].event).Some?
    ensures Head(Rewritten(json, rows)) == Head(rows)
  {
    hide Input;
    var r := Rewritten(json, rows);
    forall i | 0 <= i < |rows|
      ensures RowVerifies(h, json, rows, i) <==> json.parse(rows[i].event).Some? && RowOk(h, r, i)
    {
      assert Prev(r, i) == Prev(rows, i);
    }
  }

  /** What becomes of any change to one row's text and hash. Unreported are exactly the changes of the
      text alone that parse to an event with the same encoding. A changed event whose hash was not
      recomputed is reported at its row, one whose hash was recomputed at the next; at the last row
      only the head tells. */
  lemma RowEditIsReported<E>(h: Hash, json: Json<E>, rows: seq<Row>, i: nat, text: string, hash: string)
    requires ChainVerifies(h, json, rows) && i < |rows|
    requires json.parse(text).Some? ==>
      GoodOn(h, {Input(Prev(rows, i), ReadAs(json, rows[i].event)), Input(Prev(rows, i), ReadAs(json, text))})
    requires i + 1 < |rows| ==> var next := ReadAs(json, rows[i + 1].event);
      GoodOn(h, {Input(rows[i].hash, next), Input(hash, next)})
    ensures var edited, now := rows[i := Row(i + 1, text, hash)], ReadAs(json, text);
      if json.parse(text).None? || hash != h(Input(Prev(rows, i), now)) then FailsFirst(h, json, edited, i)
      else if now == ReadAs(json, rows[i].event) then ChainVerifies(h, json, edited) && Head(edited) == Head(rows)
      else if i + 1 < |rows| then FailsFirst(h, json, edited, i + 1)
      else ChainVerifies(h, json, edited) && Head(edited) != Head(rows)
  {
    var edited, now, was := rows[i := Row(i + 1, text, hash)], ReadAs(json, text), ReadAs(json, rows[i].event);
    assert RowVerifies(h, json, rows, i);
    EditKeepsOthers(h, json, rows, i, text, hash);
    if json.parse(text).Some? && hash == h(Input(Prev(rows, i), now)) {
      assert RowVerifies(h, json, edited, i);
      if now != was {
        if hash == rows[i].hash {
          InputInjective(Prev(rows, i), now, Prev(rows, i), was);
        }
        if i + 1 < |rows| {
          NextRowFails(h, json, rows, i, text, hash);
        }
      }
    }
  }

  lemma EditKeepsOthers<E>(h: Hash, json: Json<E>, rows: seq<Row>, i: nat, text: string, hash: string)
    requires ChainVerifies(h, json, rows) && i < |rows|
    ensures var edited := rows[i := Row(i + 1, text, hash)];
      && Prev(edited, i) == Prev(rows, i)
      && (forall j :: 0 <= j < i ==> RowVerifies(h, json, edited, j))
      && (forall j :: i + 1 < j < |rows| ==> RowVerifies(h, json, edited, j))
      && (hash == rows[i].hash && i + 1 < |rows| ==> RowVerifies(h, json, edited, i + 1))
  {
    hide Input;
    var edited := rows[i := Row(i + 1, text, hash)];
    forall j | 0 <= j < |rows| && j != i && (j != i + 1 || hash == rows[i].hash)
      ensures RowVerifies(h, json, edited, j)
    {
      assert RowVerifies(h, json, rows, j) && Prev(edited, j) == Prev(rows, j);
    }
  }

  lemma NextRowFails<E>(h: Hash, json: Json<E>, rows: seq<Row>, i: nat, text: string, hash: string)
    requires ChainVerifies(h, json, rows) && i + 1 < |rows| && hash != rows[i].hash && |hash| == |rows[i].hash|
    requires var next := ReadAs(json, rows[i + 1].event);
      GoodOn(h, {Input(rows[i].hash, next), Input(hash, next)})
    ensures !RowVerifies(h, json, rows[i := Row(i + 1, text, hash)], i + 1)
  {
    var next := ReadAs(json, rows[i + 1].event);
    assert RowVerifies(h, json, rows, i + 1);
    if h(Input(hash, next)) == rows[i + 1].hash {
      InputInjective(hash, next, rows[i].hash, next);
    }
  }

  /** Editing only a row's text is reported, and reported at that row, exactly if it changes the event's
      encoding. Otherwise the edited chain verifies, under every seal that held before. */
  lemma TextEditIsReportedExactly<E>(h: Hash, json: Json<E>, mac: Mac, rows: seq<Row>, i: nat, text: string)
    requires ChainVerifies(h, json, rows) && i < |rows|
    requires json.parse(text).Some? ==>
      GoodOn(h, {Input(Prev(rows, i), ReadAs(json, rows[i].event)), Input(Prev(rows, i), ReadAs(json, text))})
    ensures var edited := rows[i := rows[i].(event := text)];
      var same := json.parse(text).Some? && ReadAs(json, text) == ReadAs(json, rows[i].event);
      && (FailsFirst(h, json, edited, i) <==> !same)
      && (ChainVerifies(h, json, edited) <==> same)
      && forall seal, key :: SealHolds(mac, edited, seal, key) <==> SealHolds(mac, rows, seal, key)
  {
    var now, was := ReadAs(json, text), ReadAs(json, rows[i].event);
    var edited := rows[i := rows[i].(event := text)];
    assert RowVerifies(h, json, rows, i);
    assert edited == rows[i := Row(i + 1, text, rows[i].hash)];
    EditKeepsOthers(h, json, rows, i, text, rows[i].hash);
    if json.parse(text).Some? && h(Input(Prev(rows, i), now)) == rows[i].hash {
      InputInjective(Prev(rows, i), now, Prev(rows, i), was);
    }
    assert ChainVerifies(h, json, edited) <==> RowVerifies(h, json, edited, i);
    assert Head(edited) == Head(rows);
  }

  /** JSON truth values, read with or without a leading blank and written without. */
  function TruthValues(): Json<bool> {
    Json((b: bool) => if b then "true" else "false",
         text => if text == "true" || text == " true" then Some(true)
                 else if text == "false" || text == " false" then Some(false)
                 else None)
  }

  /** So not every edit is reported by the runtime's verifier: this one only adds a blank. */
  lemma RespacedEditIsNotReported(h: Hash)
    ensures var rows, json := [Row(1, "true", h(Input(GENESIS, "true")))], TruthValues();
      var edited := rows[0 := rows[0].(event := " true")];
      && edited != rows && ChainVerifies(h, json, rows) && ChainVerifies(h, json, edited)
      && (h(Input(GENESIS, " true")) != h(Input(GENESIS, "true")) ==> BreaksAt(h, edited, 0))
  {
    var rows := [Row(1, "true", h(Input(GENESIS, "true")))];
    var edited := rows[0 := rows[0].(event := " true")];
    assert edited[0].event == " true" && rows[0].event == "true";
  }

  /** Deleting a row that is not the last leaves a gap that is reported at its place. */
  lemma RuntimeReportsDeletion<E>(h: Hash, json: Json<E>, rows: seq<Row>, i: nat)
    requires ChainVerifies(h, json, rows) && i + 1 < |rows|
    ensures FailsFirst(h, json, rows[..i] + rows[i + 1..], i)
  {
    hide Input;
    var cut := rows[..i] + rows[i + 1..];
    assert RowVerifies(h, json, rows, i + 1) && cut[i] == rows[i + 1];
    forall j | 0 <= j < i
      ensures RowVerifies(h, json, cut, j)
    {
      assert RowVerifies(h, json, rows, j) && Prev(cut, j) == Prev(rows, j);
    }
  }

  /** Two chains accepted by the runtime's verifier with the same head hold the same events, row for
      row: they are equal up to the re-encoding of their texts. */
  lemma RuntimeHeadBindsEvents<E>(h: Hash, json: Json<E>, a: seq<Row>, b: seq<Row>, inputs: set<string>)
    requires ChainVerifies(h, json, a) && ChainVerifies(h, json, b) && Head(a) == Head(b)
    requires Inputs(Rewritten(json, a)) + Inputs(Rewritten(json, b)) <= inputs && GoodOn(h, inputs)
    requires |a| == |b| || forall x :: x in inputs ==> h(x) != GENESIS
    ensures Rewritten(json, a) == Rewritten(json, b)
  {
    hide ChainVerifies, ValidChain, Inputs, GoodOn;
    RuntimeReadsRewritten(h, json, a);
    RuntimeReadsRewritten(h, json, b);
    HeadBindsChain(h, Rewritten(json, a), Rewritten(json, b), inputs);
  }

  /** What the runtime accepts under a seal is what was sealed, up to that re-encoding. */
  lemma RuntimeSealBindsEvents<E>(h: Hash, json: Json<E>, mac: Mac, sealed: seq<Row>, found: seq<Row>, seal: Seal,
                                  inputs: set<string>)
    requires ChainVerifies(h, json, sealed) && ChainVerifies(h, json, found)
    requires seal.head == Head(sealed) && seal.count == HeadSeq(sealed)
    requires SealHolds(mac, found, Some(seal), None)
    requires Inputs(Rewritten(json, sealed)) + Inputs(Rewritten(json, found)) <= inputs && GoodOn(h, inputs)
    ensures Rewritten(json, found) == Rewritten(json, sealed)
  {
    hide Inputs, GoodOn, Rewritten;
    RuntimeSeqCounts(h, json, sealed);
    RuntimeHeadBindsEvents(h, json, sealed, found, inputs);
  }

  lemma RuntimeSeqCounts<E>(h: Hash, json: Json<E>, rows: seq<Row>)
    requires ChainVerifies(h, json, rows)
    ensures HeadSeq(rows) == |rows|
  {
    if rows != [] {
      assert RowVerifies(h, json, rows, |rows| - 1);
    }
  }

  /** The encoder's texts parse, and to something that is written the same way. */
  predicate RoundTrips<E>(json: Json<E>, event: E) {
    json.parse(json.canonical(event)).Some? && ReadAs(json, json.canonical(event)) == json.canonical(event)
  }

  lemma ExtendKeepsVerifying<E>(h: Hash, json: Json<E>, rows: seq<Row>, event: E)
    requires ChainVerifies(h, json, rows) && RoundTrips(json, event)
    ensures ChainVerifies(h, json, Extend(h, rows, json.canonical(event)))
  {
    hide Input;
    RuntimeSeqCounts(h, json, rows);
    var rows' := Extend(h, rows, json.canonical(event));
    forall i | 0 <= i < |rows'|
      ensures RowVerifies(h, json, rows', i)
    {
      assert Prev(rows', i) == Prev(rows, i);
      if i < |rows| {
        assert RowVerifies(h, json, rows, i);
      }
    }
  }

  function Texts<E>(json: Json<E>, events: seq<E>): (r: seq<string>)
    ensures |r| == |events|
  {
    seq(|events|, i requires 0 <= i < |events| => json.canonical(events[i]))
  }

  /** A chain of appended events passes the runtime's verifier and holds them in order. */
  lemma {:induction false} AppendedChainsVerify<E>(h: Hash, json: Json<E>, events: seq<E>)
    requires forall i :: 0 <= i < |events| ==> RoundTrips(json, events[i])
    ensures var rows := Build(h, Texts(json, events));
      && ChainVerifies(h, json, rows) && |rows| == |events|
      && forall i :: 0 <= i < |events| ==> rows[i].event == json.canonical(events[i])
    decreases |events|
  {
    hide ChainVerifies;
    if events == [] {
      EmptyVerifies(h, json);
    } else {
      var n := |events| - 1;
      AppendedChainsVerify(h, json, events[..n]);
      assert Texts(json, events)[..n] == Texts(json, events[..n]);
      ExtendKeepsVerifying(h, json, Build(h, Texts(json, events[..n])), events[n]);
      assert RoundTrips(json, events[n]);
    }
  }

  lemma EmptyVerifies<E>(h: Hash, json: Json<E>)
    ensures ChainVerifies(h, json, [])
  {
  }

  // ------------------------------------------------------- the two verifiers compared

  /** Stored texts that are what the encoder writes for what they parse to. */
  predicate CanonicalTexts<E>(json: Json<E>, rows: seq<Row>) {
    forall i :: 0 <= i < |rows| ==>
      var event := json.parse(rows[i].event); event.Some? && json.canonical(event.value) == rows[i].event
  }

  /** On canonical texts the two verifiers judge every row alike, so they agree on the verdict, on the
      first bad row and on the head. */
  lemma VerifiersAgree<E>(h: Hash, json: Json<E>, rows: seq<Row>)
    requires CanonicalTexts(json, rows)
    ensures forall i :: 0 <= i < |rows| ==> (RowVerifies(h, json, rows, i) <==> RowOk(h, rows, i))
    ensures ChainVerifies(h, json, rows) <==> ValidChain(h, rows)
    ensures forall i :: FailsFirst(h, json, rows, i) <==> BreaksAt(h, rows, i)
  {
    hide Input, Prev;
  }

  /** The verdicts agree exactly if neither verifier accepts the rows or every stored text is canonical: a
      chain that one of them accepts, the other accepts exactly if every text is canonical. */
  lemma VerifiersAgreeExactly<E>(h: Hash, json: Json<E>, rows: seq<Row>)
    requires GoodOn(h, Inputs(rows) + Inputs(Rewritten(json, rows)))
    ensures (ValidChain(h, rows) <==> ChainVerifies(h, json, rows)) <==>
      (!ValidChain(h, rows) && !ChainVerifies(h, json, rows)) || CanonicalTexts(json, rows)
  {
    hide GoodOn, Inputs, Input, Rewritten;
    if CanonicalTexts(json, rows) {
      VerifiersAgree(h, json, rows);
    } else if ValidChain(h, rows) && ChainVerifies(h, json, rows) {
      forall i | 0 <= i < |rows|
        ensures json.parse(rows[i].event).Some? && ReadAs(json, rows[i].event) == rows[i].event
      {
        BothAcceptRow(h, json, rows, i);
      }
    }
  }

  /** A row that both verifiers accept is hashed the same way by both. */
  lemma BothAcceptRow<E>(h: Hash, json: Json<E>, rows: seq<Row>, i: nat)
    requires GoodOn(h, Inputs(rows) + Inputs(Rewritten(json, rows))) && i < |rows|
    requires RowOk(h, rows, i) && RowVerifies(h, json, rows, i)
    ensures json.parse(rows[i].event).Some? && ReadAs(json, rows[i].event) == rows[i].event
  {
    var r := Rewritten(json, rows);
    assert Prev(r, i) == Prev(rows, i);
    assert InputAt(rows, i) in Inputs(rows) && InputAt(r, i) in Inputs(r);
    InputInjective(Prev(rows, i), rows[i].event, Prev(rows, i), ReadAs(json, rows[i].event));
  }

  /** A text that parses but is not canonical, hashed as it stands, passes the standalone verifier and
      not the runtime's. */
  lemma NonCanonicalTextDividesThem<E>(h: Hash, json: Json<E>, text: string)
    requires json.parse(text).Some? && json.canonical(json.parse(text).value) != text
    requires GoodOn(h, {Input(GENESIS, text), Input(GENESIS, json.canonical(json.parse(text).value))})
    ensures var rows := [Row(1, text, h(Input(GENESIS, text)))];
      ValidChain(h, rows) && !ChainVerifies(h, json, rows)
  {
    var rows := [Row(1, text, h(Input(GENESIS, text)))];
    var inputs := {Input(GENESIS, text), Input(GENESIS, json.canonical(json.parse(text).value))};
    assert Inputs(rows) + Inputs(Rewritten(json, rows)) <= inputs;
    assert !CanonicalTexts(json, rows) by { assert rows[0].event == text; }
    VerifiersAgreeExactly(h, json, rows);
  }

  /** A seal fixes the rows: whatever the standalone chain check accepts under the sealed head and count
      is what was sealed. Truncation and extension are thereby excluded too. */
  lemma SealBindsRows(h: Hash, mac: Mac, sealed: seq<Row>, found: seq<Row>, seal: Seal, inputs: set<string>)
    requires ValidChain(h, sealed) && ValidChain(h, found)
    requires seal.head == Head(sealed) && seal.count == |sealed|
    requires SealHolds(mac, found, Some(seal), None)
    requires Inputs(sealed) + Inputs(found) <= inputs && GoodOn(h, inputs)
    ensures found == sealed
  {
    HeadBindsChain(h, sealed, found, inputs);
  }

  // ------------------------------------------------------------ team evidence

  /** One session of a team run as the store holds it: its `team_sessions` row, events and seal. */
  datatype SessionEvidence = SessionEvidence(
    agent: string,
    sid: string,
    parent: Option<string>,
    depth: nat,
    rows: seq<Row>,
    seal: Option<Seal>)

  datatype TreeRow = TreeRow(agent: string, sid: string, parent: Option<string>, depth: nat)

  /** `package` is None for the empty description. */
  datatype Bundle = Bundle(
    teamId: string,
    package: Option<string>,
    tree: seq<TreeRow>,
    sessions: seq<SessionEvidence>)

  type BundleMac = (string, Bundle) -> string

  predicate SessionAccepted(h: Hash, mac: Mac, key: string, s: SessionEvidence) {
    ValidChain(h, s.rows) && SealHolds(mac, s.rows, s.seal, Some(key))
  }

  /** `_verify_team_bundle`: every session and then the bundle's own MAC. */
  method VerifyTeamBundle(h: Hash, mac: Mac, seal: BundleMac, key: string, bundle: Bundle, tag: string)
    returns (ok: bool, perSession: seq<bool>)
    ensures |perSession| == |bundle.sessions|
    ensures forall i :: 0 <= i < |perSession| ==> perSession[i] == SessionAccepted(h, mac, key, bundle.sessions[i])
    ensures ok <==> (forall i :: 0 <= i < |perSession| ==> perSession[i]) && tag == seal(key, bundle)
    ensures forall i :: 0 <= i < |perSession| && perSession[i] && bundle.sessions[i].seal.Some? ==>
      var s := bundle.sessions[i];
      && s.seal.value.head == Head(s.rows) && s.seal.value.count == |s.rows|
      && mac(key, s.seal.value.head, s.seal.value.count) == s.seal.value.mac
  {
    var allOk := true;
    perSession := [];
    for i := 0 to |bundle.sessions|
      invariant |perSession| == i
      invariant forall j :: 0 <= j < i ==> perSession[j] == SessionAccepted(h, mac, key, bundle.sessions[j])
      invariant allOk <==> forall j :: 0 <= j < i ==> perSession[j]
    {
      var s := bundle.sessions[i];
      var chain := RecomputeChain(h, s.rows);
      var sealOk := true;
      if s.seal.Some? {
        if s.seal.value.head == chain.head && s.seal.value.count == chain.count {
          sealOk := mac(key, chain.head, chain.count) == s.seal.value.mac;
        } else {
          sealOk := false;
        }
      }
      var good := chain.error.None? && sealOk;
      allOk := allOk && good;
      perSession := perSession + [good];
    }
    ok := allOk && tag == seal(key, bundle);
  }

  function Sealed(mac: Mac, key: string, s: SessionEvidence): SessionEvidence {
    s.(seal := Some(Seal(Head(s.rows), HeadSeq(s.rows), mac(key, Head(s.rows), HeadSeq(s.rows)))))
  }

  function TreeRowOf(s: SessionEvidence): TreeRow {
    TreeRow(s.agent, s.sid, s.parent, s.depth)
  }

  /** The package that a ledgered provenance event names, in the first such event. */
  function FirstProvenance(provenance: string -> Option<string>, rows: seq<Row>): Option<string> {
    if rows == [] then None
    else if provenance(rows[0].event).Some? then provenance(rows[0].event)
    else FirstProvenance(provenance, rows[1..])
  }

  /** The lead session's: only the first session of depth 0 is looked at. */
  function LeadProvenance(provenance: string -> Option<string>, members: seq<SessionEvidence>): Option<string> {
    if members == [] then None
    else if members[0].depth == 0 then FirstProvenance(provenance, members[0].rows)
    else LeadProvenance(provenance, members[1..])
  }

  /** The two nested loops that look for it. */
  method FindProvenance(provenance: string -> Option<string>, members: seq<SessionEvidence>)
    returns (package: Option<string>)
    ensures package == LeadProvenance(provenance, members)
  {
    var i := 0;
    while i < |members|
      invariant i <= |members| && LeadProvenance(provenance, members) == LeadProvenance(provenance, members[i..])
    {
      if members[i].depth == 0 {
        var rows, j := members[i].rows, 0;
        while j < |rows|
          invariant j <= |rows| && FirstProvenance(provenance, rows) == FirstProvenance(provenance, rows[j..])
        {
          package := provenance(rows[j].event);
          if package.Some? {
            return;
          }
          j := j + 1;
        }
        return None;
      }
      i := i + 1;
    }
    return None;
  }

  /** `export_team_bundle`: seal every session as it stands, gather them with the delegation tree and the
      package that governed the run, and authenticate the whole. */
  method ExportTeamBundle(mac: Mac, seal: BundleMac, key: string, teamId: string, given: Option<string>,
                          provenance: string -> Option<string>, members: seq<SessionEvidence>)
    returns (bundle: Bundle, tag: string)
    ensures tag == seal(key, bundle) && bundle.teamId == teamId
    ensures bundle.package == if given.Some? then given else LeadProvenance(provenance, members)
    ensures |bundle.tree| == |members| && forall i :: 0 <= i < |members| ==> bundle.tree[i] == TreeRowOf(members[i])
    ensures |bundle.sessions| == |members|
    ensures forall i :: 0 <= i < |members| ==> bundle.sessions[i] == Sealed(mac, key, members[i])
  {
    var sessions, tree := [], [];
    for i := 0 to |members|
      invariant |sessions| == i && |tree| == i
      invariant forall j :: 0 <= j < i ==> sessions[j] == Sealed(mac, key, members[j])
      invariant forall j :: 0 <= j < i ==> tree[j] == TreeRowOf(members[j])
    {
      var m := members[i];
      var head, count := Head(m.rows), HeadSeq(m.rows);
      sessions := sessions + [m.(seal := Some(Seal(head, count, mac(key, head, count))))];
      tree := tree + [TreeRow(m.agent, m.sid, m.parent, m.depth)];
    }
    var package := given;
    if given.None? {
      package := FindProvenance(provenance, members);
    }
    bundle := Bundle(teamId, package, tree, sessions);
    tag := seal(key, bundle);
  }

  /** Round trip: an exported bundle verifies exactly when every member's chain is valid, whatever
      seals the members carried before. */
  method ExportThenVerify(h: Hash, mac: Mac, seal: BundleMac, key: string, teamId: string, given: Option<string>,
                          provenance: string -> Option<string>, members: seq<SessionEvidence>)
    returns (ok: bool)
    ensures ok <==> forall i :: 0 <= i < |members| ==> ValidChain(h, members[i].rows)
  {
    hide ValidChain;
    var bundle, tag := ExportTeamBundle(mac, seal, key, teamId, given, provenance, members);
    var perSession;
    ok, perSession := VerifyTeamBundle(h, mac, seal, key, bundle, tag);
    forall i | 0 <= i < |members|
      ensures perSession[i] == ValidChain(h, members[i].rows)
    {
      if ValidChain(h, members[i].rows) {
        HeadSeqCounts(h, members[i].rows);
      }
    }
  }
}
