/**
 The caller half of the permit protocol: a durable inbox that keeps the first exact grant or denial
 for each request the workflow is waiting on.
 */
module QuotaWaiter {
  import opened Collections
  import opened QuotaModel

  const DEFAULT_GRANT_DEDUP_SIZE: nat := 2048

  /** Open requests with their replies, and the recently consumed request IDs, oldest first. */
  datatype Inbox = Inbox(
    expected: map<Key, PermitRequest>, grants: map<Key, PermitGrant>, denials: map<Key, PermitDenied>,
    consumed: seq<Key>)

  const EMPTY_INBOX := Inbox(map[], map[], map[], [])

  datatype RequestError = MissingRequestId | CostNotPositive | AlreadyWaiting | AlreadyConsumed

  datatype Reply = GrantReply(grant: PermitGrant) | DenialReply(denial: PermitDenied)

  function MarkConsumed(w: seq<Key>, id: Key): seq<Key> {
    if id in w then w else Newest(w + [id], DEFAULT_GRANT_DEDUP_SIZE)
  }

  predicate AcceptsGrant(b: Inbox, g: PermitGrant) {
    && g.requestId in b.expected && g.requestId !in b.consumed && g.requestId !in b.grants
    && g.scope == b.expected[g.requestId].scope && g.cost == b.expected[g.requestId].cost
  }

  function ReceiveGrant(b: Inbox, g: PermitGrant): Inbox {
    if AcceptsGrant(b, g) then b.(grants := b.grants[g.requestId := g]) else b
  }

  predicate AcceptsDenial(b: Inbox, d: PermitDenied) {
    && d.requestId in b.expected && d.requestId !in b.consumed
    && d.requestId !in b.grants && d.requestId !in b.denials
    && d.scope == b.expected[d.requestId].scope
  }

  function ReceiveDenial(b: Inbox, d: PermitDenied): Inbox {
    if AcceptsDenial(b, d) then b.(denials := b.denials[d.requestId := d]) else b
  }

  function RequestRefusal(b: Inbox, r: PermitRequest): Option<RequestError> {
    if r.requestId == NO_KEY then Some(MissingRequestId)
    else if r.cost <= 0 then Some(RequestError.CostNotPositive)
    else if r.requestId in b.expected then Some(AlreadyWaiting)
    else if r.requestId in b.consumed then Some(AlreadyConsumed)
    else None
  }

  function Expect(b: Inbox, r: PermitRequest): Inbox {
    b.(expected := b.expected[r.requestId := r])
  }

  predicate Answered(b: Inbox, id: Key) {
    id in b.grants || id in b.denials
  }

  /** A denial is taken before a grant when the inbox holds both. */
  function ReplyFor(b: Inbox, id: Key): Reply
    requires Answered(b, id)
  {
    if id in b.denials then DenialReply(b.denials[id]) else GrantReply(b.grants[id])
  }

  /** Every exit of a request, by reply or by failure, leaves the inbox like this. */
  function Finish(b: Inbox, id: Key): Inbox {
    Inbox(b.expected - {id}, b.grants - {id}, b.denials - {id}, MarkConsumed(b.consumed, id))
  }

  /** Only open requests have replies, a held grant is exact, and no open request counts as consumed. */
  ghost predicate InboxOk(b: Inbox) {
    && (forall id :: id in b.expected ==> b.expected[id].requestId == id && id !in b.consumed)
    && (forall id :: id in b.grants ==>
          id in b.expected && b.grants[id].requestId == id
          && b.grants[id].scope == b.expected[id].scope && b.grants[id].cost == b.expected[id].cost)
    && (forall id :: id in b.denials ==> id in b.expected)
    && Distinct(b.consumed) && |b.consumed| <= DEFAULT_GRANT_DEDUP_SIZE
  }

  lemma MarkConsumedWindow(w: seq<Key>, id: Key)
    requires Distinct(w) && |w| <= DEFAULT_GRANT_DEDUP_SIZE
    ensures Distinct(MarkConsumed(w, id)) && |MarkConsumed(w, id)| <= DEFAULT_GRANT_DEDUP_SIZE
    ensures id in MarkConsumed(w, id)
    ensures forall x :: x in MarkConsumed(w, id) ==> x in w || x == id
  {
    var all := w + [id];
    if id !in w {
      DistinctAppend(w, id);
      DistinctParts(all, |all| - |Newest(all, DEFAULT_GRANT_DEDUP_SIZE)|);
      var newest := Newest(all, DEFAULT_GRANT_DEDUP_SIZE);
      assert newest[|newest| - 1] == id;
    }
  }

  lemma FinishKeepsInbox(b: Inbox, id: Key)
    requires InboxOk(b)
    ensures InboxOk(Finish(b, id))
  {
    MarkConsumedWindow(b.consumed, id);
    hide Distinct, MarkConsumed;
  }

  lemma InboxWindow(b: Inbox)
    requires InboxOk(b)
    ensures Distinct(b.consumed) && |b.consumed| <= DEFAULT_GRANT_DEDUP_SIZE
  {
  }

  function ReceiveGrants(b: Inbox, gs: seq<PermitGrant>): Inbox {
    if gs == [] then b else ReceiveGrant(ReceiveGrants(b, gs[..|gs| - 1]), gs[|gs| - 1])
  }

  /** An exact grant for the open request `r`. */
  predicate Exact(r: PermitRequest, g: PermitGrant) {
    g.requestId == r.requestId && g.scope == r.scope && g.cost == r.cost
  }

  /** The grant kept for an open request: the first exact one. */
  function FirstExact(r: PermitRequest, gs: seq<PermitGrant>): Option<PermitGrant> {
    if gs == [] then None else if Exact(r, gs[0]) then Some(gs[0]) else FirstExact(r, gs[1..])
  }

  lemma {:induction false} FirstExactAppend(r: PermitRequest, gs: seq<PermitGrant>, g: PermitGrant)
    ensures FirstExact(r, gs + [g])
            == if FirstExact(r, gs).Some? then FirstExact(r, gs) else if Exact(r, g) then Some(g) else None
  {
    if gs != [] {
      assert (gs + [g])[1..] == gs[1..] + [g];
      FirstExactAppend(r, gs[1..], g);
    }
  }

  function Held(b: Inbox, id: Key): Option<PermitGrant> {
    if id in b.grants then Some(b.grants[id]) else None
  }

  /**
   Whatever grants arrive, wrong, duplicated or out of order, the inbox ends up holding exactly the
   first exact one, and holds none only when none arrived.
   */
  lemma {:induction false} FirstExactGrantWins(b: Inbox, gs: seq<PermitGrant>, r: PermitRequest)
    requires InboxOk(b) && r.requestId in b.expected && b.expected[r.requestId] == r
    requires r.requestId !in b.grants
    ensures var t := ReceiveGrants(b, gs);
            t == b.(grants := t.grants) && Held(t, r.requestId) == FirstExact(r, gs)
  {
    if gs != [] {
      var n := |gs| - 1;
      FirstExactGrantWins(b, gs[..n], r);
      FirstExactAppend(r, gs[..n], gs[n]);
      assert gs == gs[..n] + [gs[n]];
    }
  }

  function ReceiveReplies(b: Inbox, rs: seq<Reply>): Inbox {
    if rs == [] then b
    else
      var before, last := ReceiveReplies(b, rs[..|rs| - 1]), rs[|rs| - 1];
      if last.GrantReply? then ReceiveGrant(before, last.grant) else ReceiveDenial(before, last.denial)
  }

  /** An exact grant for the request, or a denial of it in its own scope. */
  predicate Answers(r: PermitRequest, reply: Reply) {
    match reply
    case GrantReply(g) => Exact(r, g)
    case DenialReply(d) => d.requestId == r.requestId && d.scope == r.scope
  }

  function FirstAnswer(r: PermitRequest, rs: seq<Reply>): Option<Reply> {
    if rs == [] then None else if Answers(r, rs[0]) then Some(rs[0]) else FirstAnswer(r, rs[1..])
  }

  lemma {:induction false} FirstAnswerAppend(r: PermitRequest, rs: seq<Reply>, reply: Reply)
    ensures FirstAnswer(r, rs + [reply])
            == if FirstAnswer(r, rs).Some? then FirstAnswer(r, rs) else if Answers(r, reply) then Some(reply) else None
  {
    if rs != [] {
      assert (rs + [reply])[1..] == rs[1..] + [reply];
      FirstAnswerAppend(r, rs[1..], reply);
    }
  }

  /** What the inbox holds of an open request after its first answer: that answer, and no denial after a grant. */
  ghost predicate Keeps(b: Inbox, id: Key, first: Option<Reply>) {
    match first
    case None => id !in b.grants && id !in b.denials
    case Some(GrantReply(g)) => id in b.grants && b.grants[id] == g && id !in b.denials
    case Some(DenialReply(d)) => id in b.denials && b.denials[id] == d
  }

  lemma {:induction false} RepliesKeep(b: Inbox, rs: seq<Reply>, r: PermitRequest)
    requires r.requestId in b.expected && b.expected[r.requestId] == r && r.requestId !in b.consumed
    requires !Answered(b, r.requestId)
    ensures var t := ReceiveReplies(b, rs);
            t == b.(grants := t.grants, denials := t.denials) && Keeps(t, r.requestId, FirstAnswer(r, rs))
  {
    if rs != [] {
      var n := |rs| - 1;
      RepliesKeep(b, rs[..n], r);
      FirstAnswerAppend(r, rs[..n], rs[n]);
      assert rs == rs[..n] + [rs[n]];
    }
  }

  /**
   Whatever grants and denials arrive, wrong, duplicated or out of order, the caller's answer is the first
   one that is for its request: an exact grant or a denial in its scope.  It has none before that.
   */
  lemma FirstAnswerWins(b: Inbox, rs: seq<Reply>, r: PermitRequest)
    requires InboxOk(b) && r.requestId in b.expected && b.expected[r.requestId] == r && !Answered(b, r.requestId)
    ensures var t := ReceiveReplies(b, rs);
            && (Answered(t, r.requestId) <==> exists i :: 0 <= i < |rs| && Answers(r, rs[i]))
            && (Answered(t, r.requestId) ==>
                  exists i :: 0 <= i < |rs| && Answers(r, rs[i]) && ReplyFor(t, r.requestId) == rs[i]
                              && forall j :: 0 <= j < i ==> !Answers(r, rs[j]))
  {
    RepliesKeep(b, rs, r);
    FirstAnswerIsFirst(r, rs);
    hide InboxOk, Answers;
  }

  lemma {:induction false} FirstAnswerIsFirst(r: PermitRequest, rs: seq<Reply>)
    ensures FirstAnswer(r, rs).None? ==> forall i :: 0 <= i < |rs| ==> !Answers(r, rs[i])
    ensures FirstAnswer(r, rs).Some? ==>
              exists i :: 0 <= i < |rs| && Answers(r, rs[i]) && FirstAnswer(r, rs) == Some(rs[i])
                          && forall j :: 0 <= j < i ==> !Answers(r, rs[j])
  {
    hide Answers;
    if rs != [] && !Answers(r, rs[0]) {
      FirstAnswerIsFirst(r, rs[1..]);
      if FirstAnswer(r, rs[1..]).Some? {
        var i :| 0 <= i < |rs[1..]| && Answers(r, rs[1..][i]) && FirstAnswer(r, rs[1..]) == Some(rs[1..][i])
                 && forall j :: 0 <= j < i ==> !Answers(r, rs[1..][j]);
        assert forall j :: 0 <= j < i + 1 ==> !Answers(r, rs[j]) by {
          forall j | 0 <= j < i + 1 ensures !Answers(r, rs[j]) {
            if j > 0 { assert rs[j] == rs[1..][j - 1]; }
          }
        }
        assert rs[i + 1] == rs[1..][i];
      }
    }
  }

  /** A request may be made exactly when it is well formed, not open already and not recently consumed. */
  lemma RequestedExactly(b: Inbox, r: PermitRequest)
    ensures var error := RequestRefusal(b, r);
            && (error == Some(MissingRequestId) <==> r.requestId == NO_KEY)
            && (error == Some(RequestError.CostNotPositive) <==> r.requestId != NO_KEY && r.cost <= 0)
            && (error == Some(AlreadyWaiting) <==> r.requestId != NO_KEY && r.cost > 0 && r.requestId in b.expected)
            && (error == Some(AlreadyConsumed) <==>
                  r.requestId != NO_KEY && r.cost > 0 && r.requestId !in b.expected && r.requestId in b.consumed)
  {
  }

  /** However a wait ends, nothing of its request stays open, and its ID is consumed; no other one is touched. */
  lemma FinishedExactly(b: Inbox, id: Key)
    requires InboxOk(b)
    ensures var t := Finish(b, id);
            && id !in t.expected && !Answered(t, id) && id in t.consumed
            && t.expected == b.expected - {id} && t.grants == b.grants - {id} && t.denials == b.denials - {id}
            && (id in b.consumed ==> t.consumed == b.consumed)
            && (id !in b.consumed ==> t.consumed == Newest(b.consumed + [id], 2048))
  {
    MarkConsumedWindow(b.consumed, id);
    hide Distinct, Newest;
  }

  class QuotaWaiterInbox {
    var expected: map<Key, PermitRequest>
    var grants: map<Key, PermitGrant>
    var denials: map<Key, PermitDenied>
    var terminalIds: set<Key>
    var terminalOrder: seq<Key>

    function View(): Inbox
      reads this
    {
      Inbox(expected, grants, denials, terminalOrder)
    }

    ghost predicate Valid()
      reads this
    {
      && InboxOk(View())
      && forall id :: id in terminalIds <==> id in terminalOrder
    }

    constructor ()
      ensures Valid() && View() == EMPTY_INBOX
    {
      expected, grants, denials, terminalIds, terminalOrder := map[], map[], map[], {}, [];
    }

    method MarkTerminal(id: Key)
      requires Distinct(terminalOrder) && |terminalOrder| <= DEFAULT_GRANT_DEDUP_SIZE
      requires forall x :: x in terminalIds <==> x in terminalOrder
      modifies this`terminalIds, this`terminalOrder
      ensures terminalOrder == MarkConsumed(old(terminalOrder), id)
      ensures forall x :: x in terminalIds <==> x in terminalOrder
    {
      if id in terminalIds {
        return;
      }
      DistinctAppend(terminalOrder, id);
      terminalIds := terminalIds + {id};
      terminalOrder := terminalOrder + [id];
      var overflow := |terminalOrder| - DEFAULT_GRANT_DEDUP_SIZE;
      if overflow > 0 {
        DistinctParts(terminalOrder, overflow);
        for i := 0 to overflow
          invariant terminalOrder == old(terminalOrder) + [id]
          invariant forall x :: x in terminalIds <==> x in terminalOrder && x !in terminalOrder[..i]
        {
          assert terminalOrder[..i + 1] == terminalOrder[..i] + [terminalOrder[i]];
          terminalIds := terminalIds - {terminalOrder[i]};
        }
        terminalOrder := terminalOrder[overflow..];
      }
    }

    method QuotaGranted(g: PermitGrant)
      requires Valid()
      modifies this`grants
      ensures Valid() && View() == ReceiveGrant(old(View()), g)
    {
      if g.requestId !in expected || g.requestId in terminalIds || g.requestId in grants
         || g.scope != expected[g.requestId].scope || g.cost != expected[g.requestId].cost {
        return;
      }
      grants := grants[g.requestId := g];
    }

    method QuotaDenied(d: PermitDenied)
      requires Valid()
      modifies this`denials
      ensures Valid() && View() == ReceiveDenial(old(View()), d)
    {
      if d.requestId !in expected || d.requestId in terminalIds || d.requestId in grants
         || d.requestId in denials || d.scope != expected[d.requestId].scope {
        return;
      }
      denials := denials[d.requestId := d];
    }

    /** The checks of `request_quota_permit`, up to the call of the signalling activity. */
    method Begin(r: PermitRequest) returns (error: Option<RequestError>)
      requires Valid()
      modifies this`expected
      ensures Valid() && error == RequestRefusal(old(View()), r)
      ensures View() == if error.None? then Expect(old(View()), r) else old(View())
    {
      if r.requestId == NO_KEY {
        return Some(MissingRequestId);
      }
      if r.cost <= 0 {
        return Some(RequestError.CostNotPositive);
      }
      if r.requestId in expected {
        return Some(AlreadyWaiting);
      }
      if r.requestId in terminalIds {
        return Some(AlreadyConsumed);
      }
      expected := expected[r.requestId := r];
      return None;
    }

    /** The end of the wait: the reply is taken out and the request is consumed. */
    method TakeReply(id: Key) returns (reply: Reply)
      requires Valid() && Answered(View(), id)
      modifies this
      ensures Valid() && View() == Finish(old(View()), id)
      ensures reply == ReplyFor(old(View()), id)
    {
      if id in denials {
        reply := DenialReply(denials[id]);
        denials := denials - {id};
      } else {
        reply := GrantReply(grants[id]);
      }
      Forget(id);
    }

    /** The end of every exit path, and all of it once an abandoned request's cancel was sent. */
    method Forget(id: Key)
      requires Valid()
      modifies this
      ensures Valid() && View() == Finish(old(View()), id)
    {
      FinishKeepsInbox(View(), id);
      hide InboxOk;
      InboxWindow(View());
      grants := grants - {id};
      denials := denials - {id};
      MarkTerminal(id);
      expected := expected - {id};
    }
  }
}
