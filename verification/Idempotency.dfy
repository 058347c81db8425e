/** The Idempotency-Key middleware: capture a response, cache it for a day, replay it. */
module Idempotency {
  import opened Domain
  import opened Base64

  const IDEMPOTENCY_TTL: Nanos := 24 * 60 * MINUTE
  const MAX_BODY_BYTES: nat := 0x10_0000

  const OK := 200
  const BAD_REQUEST := 400
  const CONFLICT := 409
  const PAYLOAD_TOO_LARGE := 413

  // ---------------------------------------------------------------------------------------------
  // Response writers
  // ---------------------------------------------------------------------------------------------

  /** One call of a handler on its response writer. */
  datatype Op = SetContentType(value: string) | WriteHeader(status: int) | Write(bytes: seq<Byte>)

  predicate IsStatus(s: int) {
    100 <= s <= 999
  }

  /** A status that announces another one; 101 is final. */
  predicate Informational(s: int) {
    100 <= s <= 199 && s != 101
  }

  predicate BodyAllowed(s: int) {
    s >= 200 && s != 204 && s != 304
  }

  predicate Is2xx(s: int) {
    200 <= s < 300
  }

  ghost predicate AreCalls(ops: seq<Op>) {
    forall k | 0 <= k < |ops| && ops[k].WriteHeader? :: IsStatus(ops[k].status)
  }

  /**
   * The server's own writer: the first final status wins, and the first Write implies 200. Either one
   * fixes the content type that the client receives, whatever the header map says later.
   */
  class Wire {
    var status: Option<int>
    /** The Content-Type entry of the header map, empty when there is none. */
    var contentType: string
    /** The content type sent. */
    var sentType: Option<string>
    var body: seq<Byte>

    ghost predicate Blank()
      reads this
    {
      status.None? && sentType.None? && body == [] && contentType == ""
    }

    /** The status and content type a client receives once the handler has returned. */
    ghost function Received(): (int, string)
      reads this
    {
      (if status.Some? then status.value else OK, if sentType.Some? then sentType.value else contentType)
    }

    constructor ()
      ensures Blank()
    {
      status, contentType, sentType, body := None, "", None, [];
    }

    method WriteHeader(s: int)
      requires IsStatus(s)
      modifies this
      ensures status == if old(status).None? && !Informational(s) then Some(s) else old(status)
      ensures sentType == if old(status).None? && !Informational(s) then Some(contentType) else old(sentType)
      ensures body == old(body) && contentType == old(contentType)
    {
      if status.None? && !Informational(s) {
        status, sentType := Some(s), Some(contentType);
      }
    }

    method Write(p: seq<Byte>)
      modifies this
      ensures status == if old(status).None? then Some(OK) else old(status)
      ensures sentType == if old(status).None? then Some(contentType) else old(sentType)
      ensures body == if BodyAllowed(status.value) then old(body) + p else old(body)
      ensures contentType == old(contentType)
    {
      if status.None? {
        status, sentType := Some(OK), Some(contentType);
      }
      if BodyAllowed(status.value) {
        body := body + p;
      }
    }
  }

  /** Mirrors every write into a buffer. */
  class CapturingWriter {
    const inner: Wire
    var body: seq<Byte>
    var status: int
    var wroteHeader: bool

    constructor (inner: Wire)
      ensures this.inner == inner && body == [] && status == OK && !wroteHeader
    {
      this.inner := inner;
      body, status, wroteHeader := [], OK, false;
    }

    method WriteHeader(s: int)
      requires IsStatus(s)
      modifies this, inner
      ensures body == old(body) && wroteHeader && status == if old(wroteHeader) then old(status) else s
      ensures var final := !old(wroteHeader) && old(inner.status).None? && !Informational(s);
              && inner.status == (if final then Some(s) else old(inner.status))
              && inner.sentType == (if final then Some(inner.contentType) else old(inner.sentType))
      ensures inner.body == old(inner.body) && inner.contentType == old(inner.contentType)
    {
      if wroteHeader {
        return;
      }
      status := s;
      wroteHeader := true;
      inner.WriteHeader(s);
    }

    method Write(p: seq<Byte>)
      modifies this, inner
      ensures body == old(body) + p && wroteHeader && status == old(status)
      ensures inner.status == if old(inner.status).None? then Some(OK) else old(inner.status)
      ensures inner.sentType == if old(inner.status).None? then Some(inner.contentType) else old(inner.sentType)
      ensures inner.body == if BodyAllowed(inner.status.value) then old(inner.body) + p else old(inner.body)
      ensures inner.contentType == old(inner.contentType)
    {
      if !wroteHeader {
        wroteHeader := true;
      }
      body := body + p;
      inner.Write(p);
    }
  }

  // ---------------------------------------------------------------------------------------------
  // What a handler's calls amount to
  // ---------------------------------------------------------------------------------------------

  /** All bytes written, in order. */
  function BodyOf(ops: seq<Op>): seq<Byte> {
    if ops == [] then []
    else BodyOf(ops[..|ops| - 1]) + if ops[|ops| - 1].Write? then ops[|ops| - 1].bytes else []
  }

  /** The content type set last. */
  function ContentTypeOf(ops: seq<Op>): string {
    if ops == [] then ""
    else if ops[|ops| - 1].SetContentType? then ops[|ops| - 1].value
    else ContentTypeOf(ops[..|ops| - 1])
  }

  /** The status of the first WriteHeader or Write, whichever came first; a Write implies 200. */
  function FirstStatus(ops: seq<Op>): Option<int> {
    if ops == [] then None
    else if ops[0].WriteHeader? then Some(ops[0].status)
    else if ops[0].Write? then Some(OK)
    else FirstStatus(ops[1..])
  }

  /** The first final status, that of a Write being 200. */
  function FirstFinal(ops: seq<Op>): Option<int> {
    if ops == [] then None
    else if FirstFinal(ops[..|ops| - 1]).Some? then FirstFinal(ops[..|ops| - 1])
    else match ops[|ops| - 1]
      case SetContentType(_) => None
      case WriteHeader(s) => if Informational(s) then None else Some(s)
      case Write(_) => Some(OK)
  }

  /** The content type in force at the first final status. */
  function TypeAtFinal(ops: seq<Op>): Option<string> {
    if ops == [] then None
    else
      var front := ops[..|ops| - 1];
      if TypeAtFinal(front).Some? then TypeAtFinal(front)
      else match ops[|ops| - 1]
        case SetContentType(_) => None
        case WriteHeader(s) => if Informational(s) then None else Some(ContentTypeOf(front))
        case Write(_) => Some(ContentTypeOf(front))
  }

  /** The same behind a capturing writer, which forwards a WriteHeader only if it is the first call. */
  function TypeCommitted(ops: seq<Op>): Option<string> {
    if ops == [] then None
    else
      var front := ops[..|ops| - 1];
      if TypeCommitted(front).Some? then TypeCommitted(front)
      else match ops[|ops| - 1]
        case SetContentType(_) => None
        case WriteHeader(s) => if FirstStatus(front).Some? || Informational(s) then None else Some(ContentTypeOf(front))
        case Write(_) => Some(ContentTypeOf(front))
  }

  /** The content type that the client of a captured handler receives. */
  function SentType(ops: seq<Op>): string {
    if TypeCommitted(ops).Some? then TypeCommitted(ops).value else ContentTypeOf(ops)
  }

  function Captured(ops: seq<Op>): int {
    if FirstStatus(ops).Some? then FirstStatus(ops).value else OK
  }

  lemma {:induction false} FirstStatusStep(ops: seq<Op>, op: Op)
    ensures FirstStatus(ops + [op]) ==
            if FirstStatus(ops).Some? then FirstStatus(ops)
            else match op
              case SetContentType(_) => None
              case WriteHeader(s) => Some(s)
              case Write(_) => Some(OK)
  {
    if ops == [] {
      assert (ops + [op])[0] == op && (ops + [op])[1..] == [];
    } else {
      FirstStatusStep(ops[1..], op);
      assert (ops + [op])[0] == ops[0] && (ops + [op])[1..] == ops[1..] + [op];
    }
  }

  lemma StepOf(ops: seq<Op>, k: nat)
    requires k < |ops|
    ensures BodyOf(ops[..k + 1]) == BodyOf(ops[..k]) + if ops[k].Write? then ops[k].bytes else []
    ensures ContentTypeOf(ops[..k + 1]) == if ops[k].SetContentType? then ops[k].value else ContentTypeOf(ops[..k])
    ensures TypeAtFinal(ops[..k + 1]) ==
            if TypeAtFinal(ops[..k]).Some? then TypeAtFinal(ops[..k])
            else match ops[k]
              case SetContentType(_) => None
              case WriteHeader(s) => if Informational(s) then None else Some(ContentTypeOf(ops[..k]))
              case Write(_) => Some(ContentTypeOf(ops[..k]))
    ensures TypeCommitted(ops[..k + 1]) ==
            if TypeCommitted(ops[..k]).Some? then TypeCommitted(ops[..k])
            else match ops[k]
              case SetContentType(_) => None
              case WriteHeader(s) => if FirstStatus(ops[..k]).Some? || Informational(s) then None else Some(ContentTypeOf(ops[..k]))
              case Write(_) => Some(ContentTypeOf(ops[..k]))
    ensures FirstFinal(ops[..k + 1]) ==
            if FirstFinal(ops[..k]).Some? then FirstFinal(ops[..k])
            else match ops[k]
              case SetContentType(_) => None
              case WriteHeader(s) => if Informational(s) then None else Some(s)
              case Write(_) => Some(OK)
    ensures FirstStatus(ops[..k + 1]) ==
            if FirstStatus(ops[..k]).Some? then FirstStatus(ops[..k])
            else match ops[k]
              case SetContentType(_) => None
              case WriteHeader(s) => Some(s)
              case Write(_) => Some(OK)
  {
    assert ops[..k + 1] == ops[..k] + [ops[k]];
    assert ops[..k + 1][..k] == ops[..k];
    FirstStatusStep(ops[..k], ops[k]);
  }

  /** The status a client receives: a captured status that is only informational ends up as 200. */
  function Sent(ops: seq<Op>): int {
    if Informational(Captured(ops)) then OK else Captured(ops)
  }

  /** Runs a handler on a capturing writer: what is captured, and what the client gets. */
  method RunHandler(cw: CapturingWriter, ops: seq<Op>)
    requires AreCalls(ops)
    requires cw.body == [] && cw.status == OK && !cw.wroteHeader
    requires cw.inner.Blank()
    modifies cw, cw.inner
    ensures cw.body == BodyOf(ops) && cw.status == Captured(ops)
    ensures cw.inner.contentType == ContentTypeOf(ops)
    ensures cw.inner.Received() == (Sent(ops), SentType(ops))
    ensures var captured := Captured(ops);
            cw.inner.Received().0 == if 100 <= captured <= 199 && captured != 101 then 200 else captured
    ensures var sent := cw.inner.Received().0; cw.inner.body == if sent < 200 || sent == 204 || sent == 304 then [] else BodyOf(ops)
    ensures cw.inner.body == if BodyAllowed(Sent(ops)) then BodyOf(ops) else []
  {
    for k := 0 to |ops|
      invariant cw.body == BodyOf(ops[..k]) && cw.wroteHeader == FirstStatus(ops[..k]).Some?
      invariant cw.status == Captured(ops[..k]) && cw.inner.contentType == ContentTypeOf(ops[..k])
      invariant (if cw.inner.status.Some? then cw.inner.status.value else OK) == Sent(ops[..k])
      invariant cw.inner.status.Some? ==> FirstStatus(ops[..k]).Some?
      invariant cw.inner.sentType == TypeCommitted(ops[..k]) && (cw.inner.sentType.Some? <==> cw.inner.status.Some?)
      invariant FirstStatus(ops[..k]).Some? && !Informational(Captured(ops[..k])) ==> cw.inner.status.Some?
      invariant cw.inner.status.None? ==> BodyOf(ops[..k]) == []
      invariant cw.inner.body == if BodyAllowed(Sent(ops[..k])) then BodyOf(ops[..k]) else []
    {
      StepOf(ops, k);
      match ops[k]
      case SetContentType(value) => cw.inner.contentType := value;
      case WriteHeader(s) => cw.WriteHeader(s);
      case Write(p) => cw.Write(p);
    }
    assert ops[..|ops|] == ops;
  }

  /** The position of the first WriteHeader or Write. */
  lemma {:induction false} FirstCall(ops: seq<Op>) returns (k: nat)
    ensures k <= |ops| && forall j | 0 <= j < k :: ops[j].SetContentType?
    ensures k == |ops| <==> FirstStatus(ops).None?
    ensures k < |ops| ==> !ops[k].SetContentType? && FirstStatus(ops) == Some(if ops[k].Write? then 200 else ops[k].status)
  {
    if ops == [] || !ops[0].SetContentType? {
      k := 0;
    } else {
      k := FirstCall(ops[1..]);
      k := k + 1;
    }
  }

  /**
   * The captured status is the one the client receives if and only if the handler does not start with
   * an informational status: such a status is captured for good and suppresses the final one.
   */
  lemma CapturedIsSentUnlessInformational(ops: seq<Op>)
    requires AreCalls(ops)
    ensures Captured(ops) == Sent(ops) <==>
            forall k | 0 <= k < |ops| && ops[k].WriteHeader? && (forall j | 0 <= j < k :: ops[j].SetContentType?) ::
              !(100 <= ops[k].status <= 199 && ops[k].status != 101)
  {
    var k := FirstCall(ops);
    if k == |ops| {
      assert forall j | 0 <= j < |ops| :: ops[j].SetContentType?;
    } else if ops[k].WriteHeader? && Informational(ops[k].status) {
      assert Captured(ops) != Sent(ops);
    }
  }

  /**
   * The calls that can send the status and the headers: a Write, and a WriteHeader with a final status
   * that is the first of its kind, since the capturing writer forwards no other.
   */
  predicate Commits(ops: seq<Op>, k: nat)
    requires k < |ops|
  {
    ops[k].Write? || (ops[k].WriteHeader? && !Informational(ops[k].status) && forall j | 0 <= j < k :: ops[j].SetContentType?)
  }

  /** From call k on, the client's content type is fixed. */
  predicate FirstCommit(ops: seq<Op>, k: nat) {
    k < |ops| && Commits(ops, k) && forall j | 0 <= j < k :: !Commits(ops, j)
  }

  /** Call j is the last one that sets the content type. */
  predicate LastType(ops: seq<Op>, j: nat) {
    j < |ops| && ops[j].SetContentType? && forall i | j < i < |ops| :: !ops[i].SetContentType?
  }

  lemma OnlyTypesSoFar(ops: seq<Op>)
    ensures FirstStatus(ops).None? <==> forall j | 0 <= j < |ops| :: ops[j].SetContentType?
  {
    var k := FirstCall(ops);
  }

  lemma CommitsInFront(ops: seq<Op>, j: nat)
    requires ops != [] && j < |ops| - 1
    ensures Commits(ops[..|ops| - 1], j) == Commits(ops, j)
  {
  }

  lemma {:induction false} CommitPosition(ops: seq<Op>) returns (k: nat)
    ensures k <= |ops| && forall j | 0 <= j < k :: !Commits(ops, j)
    ensures k == |ops| ==> TypeCommitted(ops).None?
    ensures k < |ops| ==> Commits(ops, k) && TypeCommitted(ops) == Some(ContentTypeOf(ops[..k]))
  {
    if ops == [] {
      k := 0;
    } else {
      var front, n := ops[..|ops| - 1], |ops| - 1;
      k := CommitPosition(front);
      forall j | 0 <= j < n
        ensures Commits(front, j) == Commits(ops, j)
      {
        CommitsInFront(ops, j);
      }
      if k < n {
        assert front[..k] == ops[..k];
      } else {
        OnlyTypesSoFar(front);
        k := if Commits(ops, n) then n else |ops|;
      }
    }
  }

  lemma {:induction false} TypeStaysWithoutCalls(ops: seq<Op>, k: nat)
    requires k <= |ops| && forall j | k <= j < |ops| :: !ops[j].SetContentType?
    ensures ContentTypeOf(ops) == ContentTypeOf(ops[..k])
  {
    if k < |ops| {
      var front := ops[..|ops| - 1];
      TypeStaysWithoutCalls(front, k);
      assert front[..k] == ops[..k];
    } else {
      assert ops[..k] == ops;
    }
  }

  lemma TypeIsTheLast(ops: seq<Op>, j: nat)
    requires LastType(ops, j)
    ensures ContentTypeOf(ops) == ops[j].value
  {
    TypeStaysWithoutCalls(ops, j + 1);
    StepOf(ops, j);
  }

  lemma {:induction false} NoLastType(ops: seq<Op>, k: nat)
    requires k <= |ops| && forall j | k <= j < |ops| :: !LastType(ops, j)
    ensures forall j | k <= j < |ops| :: !ops[j].SetContentType?
    decreases |ops| - k
  {
    if k < |ops| {
      forall j | k + 1 <= j < |ops|
        ensures !LastType(ops, j)
      {
      }
      NoLastType(ops, k + 1);
      assert !LastType(ops, k);
    }
  }

  /**
   * The content type that is cached, and replayed, is the one that the first client received if and
   * only if the last one that the handler sets, if it sets it after the call that commits the response,
   * is the one that was set before that call.
   */
  lemma CachedTypeIsSentUnlessSetLate(ops: seq<Op>)
    ensures ContentTypeOf(ops) == SentType(ops) <==>
            forall k, j | 0 <= k < j < |ops| && FirstCommit(ops, k) && LastType(ops, j) :: ops[j].value == ContentTypeOf(ops[..k])
  {
    var k := CommitPosition(ops);
    if k < |ops| {
      assert FirstCommit(ops, k);
      if j :| k < j < |ops| && LastType(ops, j) {
        TypeIsTheLast(ops, j);
        assert forall i | 0 <= i < |ops| && FirstCommit(ops, i) :: i == k;
        assert forall i | 0 <= i < |ops| && LastType(ops, i) :: i == j;
      } else {
        forall j | k <= j < |ops|
          ensures !LastType(ops, j)
        {
          assert j == k ==> !ops[j].SetContentType?;
        }
        NoLastType(ops, k);
        TypeStaysWithoutCalls(ops, k);
        assert forall i | 0 <= i < |ops| && FirstCommit(ops, i) :: i == k;
      }
    } else {
      assert forall i | 0 <= i < |ops| :: !FirstCommit(ops, i);
    }
  }

  /** It does happen: the client gets one content type, and every replay another. */
  lemma TypeSetTooLate()
    ensures var ops := [SetContentType("application/json"), Write([]), SetContentType("text/plain")];
            SentType(ops) == "application/json" && ContentTypeOf(ops) == "text/plain"
  {
    var ops := [SetContentType("application/json"), Write([]), SetContentType("text/plain")];
    StepOf(ops, 0);
    StepOf(ops, 1);
    StepOf(ops, 2);
    assert ops[..3] == ops;
  }

  // ---------------------------------------------------------------------------------------------
  // The store
  // ---------------------------------------------------------------------------------------------

  /** A cached response; entries written before fingerprints existed have an empty hash. */
  datatype Entry = Entry(body: seq<Byte>, contentType: string, hash: seq<Byte>)

  datatype Stored = Stored(entry: Entry, expiry: Nanos)

  type Entries = map<string, Stored>

  /** An entry is live until `linger` after its expiry time. */
  function Lookup(entries: Entries, linger: Nanos, key: string, t: Nanos): Option<Entry> {
    if key in entries && t < entries[key].expiry + linger then Some(entries[key].entry) else None
  }

  class Store {
    var entries: Entries
    const linger: Nanos
    /** No call fails. */
    const reliable: bool

    constructor (linger: Nanos, reliable: bool)
      ensures entries == map[] && this.linger == linger && this.reliable == reliable
    {
      entries := map[];
      this.linger := linger;
      this.reliable := reliable;
    }

    method Get(key: string, t: Nanos) returns (entry: Option<Entry>, ok: bool)
      ensures ok ==> entry == Lookup(entries, linger, key, t)
      ensures reliable ==> ok
    {
      ok := *;
      ok := ok || reliable;
      entry := if ok then Lookup(entries, linger, key, t) else None;
    }

    /** A failed write may still have been stored. */
    method Set(key: string, entry: Entry, t: Nanos, ttl: Nanos) returns (ok: bool)
      modifies this
      ensures entries == old(entries) || entries == old(entries)[key := Stored(entry, t + ttl)]
      ensures ok ==> entries == old(entries)[key := Stored(entry, t + ttl)]
      ensures reliable ==> ok
    {
      var lost := *;
      ok := *;
      ok := ok || reliable;
      if ok || lost {
        entries := entries[key := Stored(entry, t + ttl)];
      }
    }
  }

  // ---------------------------------------------------------------------------------------------
  // One request
  // ---------------------------------------------------------------------------------------------

  /** A request body as it arrives: complete, or broken off after some bytes. */
  datatype Body = Complete(bytes: seq<Byte>) | Broken(bytes: seq<Byte>)

  /** A request, what the handler would do with it, and the clock at its lookup and after the handler. */
  datatype Request = Request(key: string, body: Body, ops: seq<Op>, at: Nanos, done: Nanos)

  type Fingerprint = seq<Byte> -> seq<Byte>

  ghost predicate IsInjective(hash: Fingerprint) {
    (forall b :: hash(b) != []) && forall b, b' | hash(b) == hash(b') :: b == b'
  }

  /** What becomes of a request: the handler runs, a cached response is replayed, or it is turned down. */
  datatype Outcome = Ran | Replayed(entry: Entry) | Problem(status: int)

  /** The body within the limit, or the status that turns it down; reading stops one byte past the limit. */
  function Buffered(body: Body): Result<seq<Byte>, int> {
    if |body.bytes| > MAX_BODY_BYTES then Failure(PAYLOAD_TOO_LARGE)
    else if body.Broken? then Failure(BAD_REQUEST)
    else Success(body.bytes)
  }

  /** A fingerprint differs; entries without one match every body. */
  predicate Mismatched(stored: seq<Byte>, current: seq<Byte>) {
    |stored| > 0 && stored != current
  }

  function OnHit(entry: Entry, hash: seq<Byte>): Outcome {
    if Mismatched(entry.hash, hash) then Problem(CONFLICT) else Replayed(entry)
  }

  /** The outcome with a store that does not fail. */
  function Handle(entries: Entries, linger: Nanos, hash: Fingerprint, r: Request): Outcome {
    if r.key == "" then Ran
    else match Buffered(r.body)
      case Failure(status) => Problem(status)
      case Success(bytes) =>
        match Lookup(entries, linger, r.key, r.at)
        case None => Ran
        case Some(entry) => OnHit(entry, hash(bytes))
  }

  /** What a handler run leaves to be replayed. */
  function EntryOf(r: Request, hash: Fingerprint): Entry {
    Entry(BodyOf(r.ops), ContentTypeOf(r.ops), hash(r.body.bytes))
  }

  /** The store afterwards: a run that captured a 2xx under a key is cached for a day. */
  function Cached(entries: Entries, hash: Fingerprint, r: Request, o: Outcome): Entries {
    if o.Ran? && r.key != "" && Is2xx(Captured(r.ops))
    then entries[r.key := Stored(EntryOf(r, hash), r.done + IDEMPOTENCY_TTL)]
    else entries
  }

  /** The response written for an outcome; the text of a problem document is left open. */
  ghost predicate Answers(w: Wire, r: Request, o: Outcome)
    reads w
  {
    match o
    case Ran =>
      w.Received() == (Sent(r.ops), SentType(r.ops))
      && w.body == if BodyAllowed(Sent(r.ops)) then BodyOf(r.ops) else []
    case Replayed(entry) => w.Received() == (OK, entry.contentType) && w.body == entry.body
    case Problem(s) => w.Received() == (s, "application/problem+json")
  }

  method WriteProblem(w: Wire, s: int)
    requires w.Blank() && IsStatus(s) && !Informational(s)
    modifies w
    ensures w.Received() == (s, "application/problem+json")
  {
    w.contentType := "application/problem+json";
    w.WriteHeader(s);
    var document: seq<Byte> := *;
    w.Write(document);
  }

  method ReplayCachedEntry(w: Wire, r: Request, entry: Entry)
    requires w.Blank()
    modifies w
    ensures Answers(w, r, Replayed(entry))
  {
    if entry.contentType != "" {
      w.contentType := entry.contentType;
    }
    w.WriteHeader(OK);
    w.Write(entry.body);
  }

  method DispatchCacheHit(w: Wire, r: Request, entry: Entry, requestHash: seq<Byte>) returns (o: Outcome)
    requires w.Blank()
    modifies w
    ensures if entry.hash != [] && entry.hash != requestHash
            then o == Problem(409) && w.Received() == (409, "application/problem+json")
            else o == Replayed(entry) && w.Received() == (200, entry.contentType) && w.body == entry.body
    ensures o == OnHit(entry, requestHash) && Answers(w, r, o)
  {
    if Mismatched(entry.hash, requestHash) {
      WriteProblem(w, CONFLICT);
      return Problem(CONFLICT);
    }
    ReplayCachedEntry(w, r, entry);
    o := Replayed(entry);
  }

  method RunAndCache(store: Store, w: Wire, r: Request, hash: Fingerprint)
    requires w.Blank() && AreCalls(r.ops) && r.key != ""
    modifies store, w
    ensures !(200 <= Captured(r.ops) < 300) ==> store.entries == old(store.entries)
    ensures var stored := Stored(Entry(BodyOf(r.ops), ContentTypeOf(r.ops), hash(r.body.bytes)), r.done + 86_400_000_000_000);
            && store.entries in {old(store.entries), old(store.entries)[r.key := stored]}
            && (store.reliable && 200 <= Captured(r.ops) < 300 ==> store.entries == old(store.entries)[r.key := stored])
    ensures Answers(w, r, Ran)
    ensures store.entries in {old(store.entries), Cached(old(store.entries), hash, r, Ran)}
    ensures store.reliable ==> store.entries == Cached(old(store.entries), hash, r, Ran)
  {
    var cw := new CapturingWriter(w);
    RunHandler(cw, r.ops);
    if cw.status < 200 || cw.status >= 300 {
      return;
    }
    var entry := Entry(cw.body, w.contentType, hash(r.body.bytes));
    var _ := store.Set(r.key, entry, r.done, IDEMPOTENCY_TTL);
  }

  /** The response of a handler that writes to the server directly. */
  ghost predicate AnswersDirectly(w: Wire, r: Request)
    reads w
  {
    && w.status == FirstFinal(r.ops) && w.sentType == TypeAtFinal(r.ops) && w.contentType == ContentTypeOf(r.ops)
    && w.body == if w.status.Some? && BodyAllowed(w.status.value) then BodyOf(r.ops) else []
  }

  /** The handler on the server's own writer. */
  method PassThrough(w: Wire, r: Request)
    requires w.Blank() && AreCalls(r.ops)
    modifies w
    ensures AnswersDirectly(w, r)
  {
    for k := 0 to |r.ops|
      invariant w.status == FirstFinal(r.ops[..k]) && w.contentType == ContentTypeOf(r.ops[..k])
      invariant w.sentType == TypeAtFinal(r.ops[..k]) && (w.sentType.Some? <==> w.status.Some?)
      invariant w.status.None? ==> BodyOf(r.ops[..k]) == []
      invariant w.body == if w.status.Some? && BodyAllowed(w.status.value) then BodyOf(r.ops[..k]) else []
    {
      StepOf(r.ops, k);
      match r.ops[k]
      case SetContentType(value) => w.contentType := value;
      case WriteHeader(s) => w.WriteHeader(s);
      case Write(p) => w.Write(p);
    }
    assert r.ops[..|r.ops|] == r.ops;
  }

  /**
   * The middleware. With a store that does not fail, the outcome and the store are exactly those of
   * the specification; a failing lookup runs the handler, and in every case the response is the one of
   * the outcome.
   */
  method ServeIdempotent(store: Store, w: Wire, r: Request, hash: Fingerprint) returns (o: Outcome)
    requires w.Blank() && AreCalls(r.ops)
    modifies store, w
    ensures store.reliable ==>
              var live := r.key in old(store.entries) && r.at < old(store.entries)[r.key].expiry + store.linger;
              if r.key == "" then o.Ran? && store.entries == old(store.entries)
              else if |r.body.bytes| > 1_048_576 then o == Problem(413) && store.entries == old(store.entries)
              else if r.body.Broken? then o == Problem(400) && store.entries == old(store.entries)
              else if live then
                var entry := old(store.entries)[r.key].entry;
                && o == (if entry.hash != [] && entry.hash != hash(r.body.bytes) then Problem(409) else Replayed(entry))
                && store.entries == old(store.entries)
              else
                && o.Ran?
                && store.entries ==
                   if 200 <= Captured(r.ops) < 300
                   then old(store.entries)[r.key := Stored(Entry(BodyOf(r.ops), ContentTypeOf(r.ops), hash(r.body.bytes)),
                                                           r.done + 86_400_000_000_000)]
                   else old(store.entries)
    ensures !(o.Ran? && r.key != "" && 200 <= Captured(r.ops) < 300) ==> store.entries == old(store.entries)
    ensures forall key | key != r.key ::
              && (key in store.entries <==> key in old(store.entries))
              && (key in store.entries ==> store.entries[key] == old(store.entries)[key])
    ensures r.key != "" ==>
              match o
              case Ran =>
                var captured, sent := Captured(r.ops), w.Received().0;
                && sent == (if 100 <= captured <= 199 && captured != 101 then 200 else captured)
                && w.Received().1 == SentType(r.ops)
                && w.body == if sent < 200 || sent == 204 || sent == 304 then [] else BodyOf(r.ops)
              case Replayed(entry) => w.Received() == (200, entry.contentType) && w.body == entry.body
              case Problem(status) => w.Received() == (status, "application/problem+json")
    ensures store.reliable ==>
              && o == Handle(old(store.entries), store.linger, hash, r)
              && store.entries == Cached(old(store.entries), hash, r, o)
    ensures o == Handle(old(store.entries), store.linger, hash, r) || (o.Ran? && r.key != "" && Buffered(r.body).Success?)
    ensures store.entries in {old(store.entries), Cached(old(store.entries), hash, r, o)}
    ensures if r.key == "" then AnswersDirectly(w, r) else Answers(w, r, o)
  {
    if r.key == "" {
      PassThrough(w, r);
      return Ran;
    }
    var body := Buffered(r.body);
    if body.Failure? {
      WriteProblem(w, body.error);
      return Problem(body.error);
    }
    var requestHash := hash(body.value);
    var entry, ok := store.Get(r.key, r.at);
    if !ok {
      RunAndCache(store, w, r, hash);
      return Ran;
    }
    if entry.Some? {
      o := DispatchCacheHit(w, r, entry.value, requestHash);
      return;
    }
    RunAndCache(store, w, r, hash);
    return Ran;
  }

  // ---------------------------------------------------------------------------------------------
  // Sequential requests
  // ---------------------------------------------------------------------------------------------

  /** Each request is over before the next one starts. */
  ghost predicate AreSequential(rs: seq<Request>) {
    (forall k | 0 <= k < |rs| :: rs[k].at <= rs[k].done) && forall i, j | 0 <= i < j < |rs| :: rs[i].done <= rs[j].at
  }

  /** The store after requests served one after the other, from an empty one on. */
  ghost function After(linger: Nanos, hash: Fingerprint, rs: seq<Request>): Entries {
    if rs == [] then map[]
    else
      var before, last := After(linger, hash, rs[..|rs| - 1]), rs[|rs| - 1];
      Cached(before, hash, last, Handle(before, linger, hash, last))
  }

  ghost function OutcomeOf(linger: Nanos, hash: Fingerprint, rs: seq<Request>, k: nat): Outcome
    requires k < |rs|
  {
    Handle(After(linger, hash, rs[..k]), linger, hash, rs[k])
  }

  /** Request k ran the handler under a key, and the run captured a 2xx. */
  ghost predicate Succeeded(linger: Nanos, hash: Fingerprint, rs: seq<Request>, k: nat)
    requires k < |rs|
  {
    rs[k].key != "" && OutcomeOf(linger, hash, rs, k).Ran? && Is2xx(Captured(rs[k].ops))
  }

  /** The lifetime of the entry that request i would leave covers the lookup of request j. */
  predicate Covers(linger: Nanos, rs: seq<Request>, i: nat, j: nat)
    requires i < |rs| && j < |rs|
  {
    i < j && rs[i].key == rs[j].key && rs[j].at < rs[i].done + IDEMPOTENCY_TTL + linger
  }

  lemma AfterStep(linger: Nanos, hash: Fingerprint, rs: seq<Request>, k: nat)
    requires k < |rs|
    ensures After(linger, hash, rs[..k + 1]) == Cached(After(linger, hash, rs[..k]), hash, rs[k], OutcomeOf(linger, hash, rs, k))
  {
    var longer := rs[..k + 1];
    assert longer[..k] == rs[..k];
  }

  /** Only a successful run under a key changes what is stored there, and only when nothing live was. */
  lemma KeyStep(linger: Nanos, hash: Fingerprint, rs: seq<Request>, key: string, k: nat)
    requires k < |rs| && key != ""
    ensures var before, after := After(linger, hash, rs[..k]), After(linger, hash, rs[..k + 1]);
            if rs[k].key == key && Succeeded(linger, hash, rs, k)
            then key in after && after[key] == Stored(EntryOf(rs[k], hash), rs[k].done + IDEMPOTENCY_TTL)
                 && (key in before ==> before[key].expiry + linger <= rs[k].at)
            else (key in after <==> key in before) && (key in before ==> after[key] == before[key])
  {
    hide EntryOf, Captured, Buffered, After;
    AfterStep(linger, hash, rs, k);
  }

  /** What is stored under a key is what its last successful run left. */
  lemma {:induction false} StoredIsLastSuccess(linger: Nanos, hash: Fingerprint, rs: seq<Request>, key: string, k: nat)
    returns (last: Option<nat>)
    requires k <= |rs| && key != ""
    ensures last.None? ==> key !in After(linger, hash, rs[..k]) && forall i | 0 <= i < k && rs[i].key == key :: !Succeeded(linger, hash, rs, i)
    ensures last.Some? ==>
              && last.value < k && rs[last.value].key == key && Succeeded(linger, hash, rs, last.value)
              && key in After(linger, hash, rs[..k])
              && After(linger, hash, rs[..k])[key] == Stored(EntryOf(rs[last.value], hash), rs[last.value].done + IDEMPOTENCY_TTL)
              && (forall i | 0 <= i < k && rs[i].key == key && Succeeded(linger, hash, rs, i) :: i <= last.value)
  {
    if k == 0 {
      last := None;
    } else {
      hide EntryOf, After, Succeeded;
      KeyStep(linger, hash, rs, key, k - 1);
      var before := StoredIsLastSuccess(linger, hash, rs, key, k - 1);
      last := if rs[k - 1].key == key && Succeeded(linger, hash, rs, k - 1) then Some(k - 1) else before;
    }
  }

  /** Two successful runs under one key are at least one entry lifetime apart. */
  lemma AtMostOneSuccessPerLifetime(linger: Nanos, hash: Fingerprint, rs: seq<Request>, i: nat, j: nat)
    requires AreSequential(rs) && linger >= 0 && i < j < |rs| && rs[i].key == rs[j].key
    requires rs[i].key != "" && OutcomeOf(linger, hash, rs, i).Ran? && OutcomeOf(linger, hash, rs, j).Ran?
    requires 200 <= Captured(rs[i].ops) < 300 && 200 <= Captured(rs[j].ops) < 300
    ensures rs[i].done + 86_400_000_000_000 + linger <= rs[j].at
  {
    assert Succeeded(linger, hash, rs, i) && Succeeded(linger, hash, rs, j);
    var last := StoredIsLastSuccess(linger, hash, rs, rs[j].key, j);
    KeyStep(linger, hash, rs, rs[j].key, j);
  }

  /**
   * While the entry of a successful run lives, its key never runs the handler again: the same body
   * gets exactly the bytes first written with status 200, any other readable body a conflict.
   */
  lemma ReplayedWhileLive(linger: Nanos, hash: Fingerprint, rs: seq<Request>, i: nat, j: nat)
    requires IsInjective(hash) && AreSequential(rs) && linger >= 0 && i < |rs| && j < |rs|
    requires rs[i].key != "" && OutcomeOf(linger, hash, rs, i).Ran? && 200 <= Captured(rs[i].ops) < 300
    requires i < j && rs[i].key == rs[j].key && rs[j].at < rs[i].done + 86_400_000_000_000 + linger
    ensures !OutcomeOf(linger, hash, rs, j).Ran?
    ensures OutcomeOf(linger, hash, rs, j) ==
            if |rs[j].body.bytes| > 1_048_576 then Problem(413)
            else if rs[j].body.Broken? then Problem(400)
            else if rs[j].body.bytes == rs[i].body.bytes
            then Replayed(Entry(BodyOf(rs[i].ops), ContentTypeOf(rs[i].ops), hash(rs[i].body.bytes)))
            else Problem(409)
  {
    assert Succeeded(linger, hash, rs, i) && Covers(linger, rs, i, j);
    var last := StoredIsLastSuccess(linger, hash, rs, rs[j].key, j);
    assert last.Some? && i <= last.value;
    if i < last.value {
      AtMostOneSuccessPerLifetime(linger, hash, rs, i, last.value);
    }
    assert last.value == i;
  }

  /** A readable request under a key runs the handler exactly when no successful run's entry covers it. */
  lemma RunsExactlyWhenUncovered(linger: Nanos, hash: Fingerprint, rs: seq<Request>, j: nat)
    requires AreSequential(rs) && linger >= 0 && j < |rs| && rs[j].key != ""
    requires |rs[j].body.bytes| <= 1_048_576 && rs[j].body.Complete?
    ensures OutcomeOf(linger, hash, rs, j).Ran? <==>
            !exists i :: 0 <= i < j && rs[i].key == rs[j].key && OutcomeOf(linger, hash, rs, i).Ran?
                         && 200 <= Captured(rs[i].ops) < 300 && rs[j].at < rs[i].done + 86_400_000_000_000 + linger
  {
    hide Captured;
    var last := StoredIsLastSuccess(linger, hash, rs, rs[j].key, j);
    if last.Some? {
      assert Succeeded(linger, hash, rs, last.value);
      assert Covers(linger, rs, last.value, j) <==> rs[j].at < rs[last.value].done + IDEMPOTENCY_TTL + linger;
    }
  }

  /**
   * A request whose run captured anything but a 2xx, an error say, leaves nothing to replay: sent again
   * under its key, it runs the handler again, unless another request succeeded under that key meanwhile.
   */
  lemma FailuresRunAgain(linger: Nanos, hash: Fingerprint, rs: seq<Request>, i: nat, j: nat)
    requires AreSequential(rs) && linger >= 0 && i < j < |rs| && rs[i].key == rs[j].key != ""
    requires OutcomeOf(linger, hash, rs, i).Ran? && !(200 <= Captured(rs[i].ops) < 300)
    requires forall k | i < k < j && rs[k].key == rs[i].key :: !OutcomeOf(linger, hash, rs, k).Ran? || !(200 <= Captured(rs[k].ops) < 300)
    requires |rs[i].body.bytes| <= 1_048_576 && rs[i].body.Complete? && |rs[j].body.bytes| <= 1_048_576 && rs[j].body.Complete?
    ensures OutcomeOf(linger, hash, rs, j).Ran?
  {
    RunsExactlyWhenUncovered(linger, hash, rs, i);
    RunsExactlyWhenUncovered(linger, hash, rs, j);
    assert rs[i].at <= rs[i].done <= rs[j].at;
  }

  /**
   * A handler that announces itself with an informational status gets a 200 to the client that is
   * never cached, so the same request runs it again.
   */
  lemma EarlyHintsRunTwice(linger: Nanos, hash: Fingerprint, r: Request, again: Request)
    requires r.key != "" && Buffered(r.body).Success? && r.ops == [WriteHeader(103), WriteHeader(201), Write([])]
    requires again == r.(at := r.done, done := r.done) && r.at <= r.done
    ensures OutcomeOf(linger, hash, [r, again], 0).Ran? && OutcomeOf(linger, hash, [r, again], 1).Ran?
    ensures Sent(r.ops) == 200 && Captured(r.ops) == 103
  {
    var rs := [r, again];
    assert rs[..1] == [r] && rs[..0] == [];
    AfterStep(linger, hash, rs, 0);
  }
}
