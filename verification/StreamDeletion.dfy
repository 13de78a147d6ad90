/** Who is deleted, when, and how often (stream_rpc_handler.hpp, 276-304).

  A connection leaves through a race between its "done" tag and an outstanding
  "writing" tag. The code relies on an ordering it never checks. Here that
  ordering is the predicate `Contract`, and it is shown to be exactly what the
  bookkeeping needs: no weaker promise from gRPC would do.
 */
module StreamDeletion {
  import opened Tags
  import opened StreamRpc

  /** What the handler assumes about one returned tag: a done event follows the
      activation of its connection, and an operation fails exactly when the done
      event of its connection has been handled. */
  predicate Contract(w: World, t: Address, ok: bool) {
    && t in w.c.tags
    && var tag := w.c.tags[t];
    && tag.data in w.c.active
    && (tag.kind == Writing ==> (ok <==> w.c.active[tag.data] !in w.doneHandled))
  }

  predicate NoRepeat<T(==)>(s: seq<T>) {
    forall i, j :: 0 <= i < j < |s| ==> s[i] != s[j]
  }

  ghost predicate DonePending(c: Connections, a: Address) {
    Named(c.tags, Tag(a, Done))
  }

  ghost predicate Distinct(tags: map<Address, Tag<TagLabel>>) {
    forall t, u :: t in tags && u in tags && tags[t] == tags[u] ==> t == u
  }

  /** Every tag names an object that exists. */
  ghost predicate NamesLive(c: Connections) {
    forall t :: t in c.tags ==> Lookup(c, c.tags[t].data).Some?
  }

  /** Every connection has a tag whose return will remove it. */
  ghost predicate CanLeave(c: Connections) {
    && (c.next.Some? ==> DonePending(c, c.next.value.key))
    && (forall a :: a in c.active ==> DonePending(c, a) || a in c.processing)
  }

  ghost predicate TagsNameLiving(c: Connections) {
    Distinct(c.tags) && NamesLive(c) && CanLeave(c)
  }

  /** `doneHandled` agrees with the outstanding done tags. */
  ghost predicate DoneMarks(w: World) {
    && (forall a :: a in w.c.active ==> (w.c.active[a] in w.doneHandled <==> !DonePending(w.c, a)))
    && (w.c.next.Some? ==> w.c.next.value.id !in w.doneHandled)
    && (forall id :: id in w.doneHandled ==> id < w.created)
  }

  /** The deletion log: no dangling read, nobody twice, nobody still present, and
      together with the active connections exactly those that connected. */
  ghost predicate DeletedOnce(w: World) {
    && NoRepeat(w.connected) && NoRepeat(w.deleted)
    && (forall d :: d in w.deleted ==> d.Some? && d.value in w.connected)
    && (forall a :: a in w.c.active ==> w.c.active[a] in w.connected && Some(w.c.active[a]) !in w.deleted)
    && (forall id :: id in w.connected ==> Some(id) in w.deleted || id in w.c.active.Values)
    && (forall id :: id in w.connected ==> id < w.created)
    && (w.c.next.Some? ==> w.c.next.value.id !in w.connected)
  }

  ghost predicate Accounted(w: World) {
    TagsNameLiving(w.c) && DoneMarks(w) && DeletedOnce(w)
  }

  /* ------------------------------------------------------------ the steps */

  lemma NamedAfterAdd(tags: map<Address, Tag<TagLabel>>, t: Address, tag: Tag<TagLabel>, name: Tag<TagLabel>)
    requires t !in tags
    ensures Named(tags[t := tag], name) <==> Named(tags, name) || name == tag
  {
    var more := tags[t := tag];
    if Named(tags, name) {
      var u :| u in tags && tags[u] == name;
      assert more[u] == name;
    }
    assert more[t] == tag;
  }

  lemma NamedAfterTake(tags: map<Address, Tag<TagLabel>>, t: Address, name: Tag<TagLabel>)
    requires t in tags && Distinct(tags)
    ensures Named(tags - {t}, name) <==> Named(tags, name) && name != tags[t]
  {
    if Named(tags, name) && name != tags[t] {
      var u :| u in tags && tags[u] == name;
      assert (tags - {t})[u] == name;
    }
  }

  lemma AcceptKeepsNames(w: World, conn: Address, tag: Address)
    requires TagsNameLiving(w.c) && Enabled(w, Accept(conn, tag))
    ensures TagsNameLiving(Activate(w, conn, tag).c)
    ensures forall a: Address :: DonePending(Activate(w, conn, tag).c, a) <==> DonePending(w.c, a) || a == conn
  {
    var v := Activate(w, conn, tag);
    forall a: Address ensures DonePending(v.c, a) <==> DonePending(w.c, a) || a == conn {
      NamedAfterAdd(w.c.tags, tag, Tag(conn, Done), Tag(a, Done));
    }
    assert CanLeave(v.c);
    assert forall t :: t in w.c.tags ==> w.c.tags[t].data != conn;
    assert Distinct(v.c.tags);
  }

  lemma AcceptKeepsLog(w: World, conn: Address, tag: Address)
    requires Consistent(w) && DeletedOnce(w)
    ensures DeletedOnce(Activate(w, conn, tag))
  {
    var v := Activate(w, conn, tag);
    forall id | id in v.connected ensures Some(id) in v.deleted || id in v.c.active.Values {
      if id in w.connected && Some(id) !in w.deleted {
        var a :| a in w.c.active && w.c.active[a] == id;
        assert v.c.active[a] == id;
      } else if id !in w.connected {
        assert v.c.active[w.c.next.value.key] == id;
      }
    }
  }

  lemma AcceptAccounted(w: World, conn: Address, tag: Address)
    requires Consistent(w) && Accounted(w) && Enabled(w, Accept(conn, tag))
    ensures Accounted(Activate(w, conn, tag))
  {
    AcceptKeepsNames(w, conn, tag);
    AcceptKeepsLog(w, conn, tag);
  }

  lemma IssueKeepsDone(w: World, op: Operation, client: Option<Address>, batch: map<Address, Address>, a: Address)
    requires batch.Keys !! w.c.tags.Keys
    ensures DonePending(IssueAll(w, op, client, batch).c, a) == DonePending(w.c, a)
  {
    var v := IssueAll(w, op, client, batch);
    if DonePending(w.c, a) {
      var t :| t in w.c.tags && w.c.tags[t] == Tag(a, Done);
      assert v.c.tags[t] == Tag(a, Done);
    }
  }

  lemma IssueKeepsNames(w: World, op: Operation, client: Option<Address>, batch: map<Address, Address>)
    requires w.c.processing == {} && TagsNameLiving(w.c) && Enabled(w, Issue(op, client, batch))
    requires forall t :: t in w.c.tags ==> w.c.tags[t].kind != Writing
    ensures Distinct(IssueAll(w, op, client, batch).c.tags) && NamesLive(IssueAll(w, op, client, batch).c)
  {
    var v := IssueAll(w, op, client, batch);
    forall t | t in v.c.tags ensures Lookup(v.c, v.c.tags[t].data).Some? {
      if t in batch { assert batch[t] in batch.Values; } else { assert Lookup(w.c, w.c.tags[t].data).Some?; }
    }
  }

  lemma IssueAccounted(w: World, op: Operation, client: Option<Address>, batch: map<Address, Address>)
    requires OneInFlight(w) && Accounted(w) && Enabled(w, Issue(op, client, batch))
    ensures Accounted(IssueAll(w, op, client, batch))
  {
    IssueKeepsNames(w, op, client, batch);
    forall a: Address ensures DonePending(IssueAll(w, op, client, batch).c, a) == DonePending(w.c, a) {
      IssueKeepsDone(w, op, client, batch, a);
    }
  }

  /** What a completion does to the shared structures. */
  lemma CompleteShape(w: World, t: Address, ok: bool)
    requires t in w.c.tags
    ensures
      var a, c := w.c.tags[t].data, Complete(w, t, ok).c;
      && c.tags == w.c.tags - {t} && c.next == w.c.next
      && c.processing == (if w.c.tags[t].kind == Writing then w.c.processing - {a} else w.c.processing)
      && c.active == (if Leaves(w, t, ok) then w.c.active - {a} else w.c.active)
  {
  }

  predicate Leaves(w: World, t: Address, ok: bool)
    requires t in w.c.tags
  {
    if w.c.tags[t].kind == Writing then !ok else w.c.tags[t].data !in w.c.processing
  }

  lemma ReturnTakesName(w: World, t: Address, ok: bool, a: Address)
    requires Distinct(w.c.tags) && t in w.c.tags
    ensures DonePending(Complete(w, t, ok).c, a) <==> DonePending(w.c, a) && Tag(a, Done) != w.c.tags[t]
  {
    CompleteShape(w, t, ok);
    NamedAfterTake(w.c.tags, t, Tag(a, Done));
  }

  lemma TakeKeepsLive(c: Connections, d: Connections, t: Address)
    requires t in c.tags && NamesLive(c) && d.tags == c.tags - {t} && d.next == c.next
    requires d.active == c.active || d.active == c.active - {c.tags[t].data}
    requires d.active != c.active ==> forall u :: u in d.tags ==> d.tags[u].data != c.tags[t].data
    ensures NamesLive(d)
  {
    forall u | u in d.tags ensures Lookup(d, d.tags[u].data).Some? {
      assert d.tags[u] == c.tags[u] && Lookup(c, c.tags[u].data).Some?;
    }
  }

  lemma LeaverHasNoName(w: World, t: Address, ok: bool)
    requires OneInFlight(w) && Distinct(w.c.tags) && DoneMarks(w) && Contract(w, t, ok) && Leaves(w, t, ok)
    ensures forall u :: u in w.c.tags && u != t ==> w.c.tags[u].data != w.c.tags[t].data
  {
    var a := w.c.tags[t].data;
    forall u | u in w.c.tags && u != t ensures w.c.tags[u].data != a {
      assert Named(w.c.tags, w.c.tags[u]);
      assert w.c.tags[u] != Tag(a, Writing);
    }
  }

  lemma ReturnKeepsNames(w: World, t: Address, ok: bool)
    requires OneInFlight(w) && TagsNameLiving(w.c) && DoneMarks(w) && Contract(w, t, ok)
    requires w.c.next.Some? ==> w.c.next.value.key !in w.c.active
    ensures TagsNameLiving(Complete(w, t, ok).c)
  {
    var d := Complete(w, t, ok).c;
    CompleteShape(w, t, ok);
    if Leaves(w, t, ok) { LeaverHasNoName(w, t, ok); }
    TakeKeepsLive(w.c, d, t);
    forall a: Address ensures DonePending(d, a) == (DonePending(w.c, a) && Tag(a, Done) != w.c.tags[t]) {
      ReturnTakesName(w, t, ok, a);
    }
  }

  lemma ReturnKeepsMark(w: World, t: Address, ok: bool, a: Address)
    requires SerialNumbers(w) && Distinct(w.c.tags) && DoneMarks(w) && Contract(w, t, ok)
    requires a in Complete(w, t, ok).c.active
    ensures a in w.c.active && Complete(w, t, ok).c.active[a] == w.c.active[a]
    ensures w.c.active[a] in Complete(w, t, ok).doneHandled <==> !DonePending(Complete(w, t, ok).c, a)
  {
    ReturnTakesName(w, t, ok, a);
  }

  lemma ReturnKeepsMarks(w: World, t: Address, ok: bool)
    requires SerialNumbers(w) && Distinct(w.c.tags) && DoneMarks(w) && Contract(w, t, ok)
    ensures DoneMarks(Complete(w, t, ok))
  {
    forall a | a in Complete(w, t, ok).c.active
      ensures Complete(w, t, ok).c.active[a] in Complete(w, t, ok).doneHandled
          <==> !DonePending(Complete(w, t, ok).c, a)
    {
      ReturnKeepsMark(w, t, ok, a);
    }
  }

  lemma RemoveKeepsLog(w: World, a: Address)
    requires SerialNumbers(w) && DeletedOnce(w) && a in w.c.active
    ensures DeletedOnce(Remove(w, a))
  {
    var v := Remove(w, a);
    forall id | id in v.connected ensures Some(id) in v.deleted || id in v.c.active.Values {
      if id in w.c.active.Values && id != w.c.active[a] {
        var b :| b in w.c.active && w.c.active[b] == id;
        assert v.c.active[b] == id;
      } else if id == w.c.active[a] {
        assert v.deleted[|w.deleted|] == Some(id);
      }
    }
  }

  lemma ReturnKeepsLog(w: World, t: Address, ok: bool)
    requires Consistent(w) && DeletedOnce(w) && t in w.outstanding && Contract(w, t, ok)
    ensures DeletedOnce(Complete(w, t, ok))
  {
    RemoveKeepsLog(w, w.c.tags[t].data);
  }

  /** A return that breaks the contract breaks the bookkeeping. */
  lemma BreachIsFatal(w: World, t: Address, ok: bool)
    requires Consistent(w) && Accounted(w) && t in w.outstanding && !Contract(w, t, ok)
    ensures !TagsNameLiving(Complete(w, t, ok).c)
  {
    var v := Complete(w, t, ok);
    var a := w.c.tags[t].data;
    ReturnTakesName(w, t, ok, a);
    if w.c.tags[t].kind == Writing {
      if !ok {
        var u :| u in w.c.tags && w.c.tags[u] == Tag(a, Done);
        assert u in v.c.tags && Lookup(v.c, v.c.tags[u].data) == None;
      } else {
        assert a in v.c.active && a !in v.c.processing && !DonePending(v.c, a);
      }
    } else {
      assert v.c.next.Some? && v.c.next.value.key == a;
    }
  }

  /** Theorem: from a well-kept state, handling a returned tag keeps the books if
      and only if gRPC honoured the contract. */
  lemma {:induction false} ContractIsExact(w: World, t: Address, ok: bool)
    requires Consistent(w) && Accounted(w) && t in w.outstanding
    ensures Accounted(Complete(w, t, ok)) <==> Contract(w, t, ok)
  {
    if Contract(w, t, ok) {
      ReturnKeepsNames(w, t, ok);
      ReturnKeepsMarks(w, t, ok);
      ReturnKeepsLog(w, t, ok);
    } else {
      BreachIsFatal(w, t, ok);
    }
  }

  /* ------------------------------------------------------------- the runs */

  predicate Honoured(w: World, e: Event) {
    e.Return? && e.tag in w.c.tags ==> Contract(w, e.tag, e.ok)
  }

  predicate ContractRun(es: seq<Event>) {
    es == [] || (ContractRun(es[..|es| - 1]) && Honoured(Run(es[..|es| - 1]), es[|es| - 1]))
  }

  /** The books balance after every step of the run. */
  ghost predicate AlwaysAccounted(es: seq<Event>) {
    Accounted(Run(es)) && (es == [] || AlwaysAccounted(es[..|es| - 1]))
  }

  /** Theorem: over a whole run the books balance throughout if and only if every
      return honoured the contract. */
  lemma {:induction false} AccountedIffContract(es: seq<Event>)
    requires ValidRun(es)
    ensures AlwaysAccounted(es) <==> ContractRun(es)
  {
    AlwaysConsistent(es);
    if es == [] {
    } else {
      var past, e := es[..|es| - 1], es[|es| - 1];
      AccountedIffContract(past);
      AlwaysConsistent(past);
      if AlwaysAccounted(past) {
        match e
        case Accept(conn, tag) => AcceptAccounted(Run(past), conn, tag);
        case Issue(op, client, batch) => IssueAccounted(Run(past), op, client, batch);
        case Return(t, ok) => ContractIsExact(Run(past), t, ok);
      }
    }
  }

  /** Theorem: under the contract the connections that ever connected are the
      disjoint union of the active ones and the deleted ones, each deleted once. */
  lemma {:induction false} DeletedExactlyOnce(es: seq<Event>)
    requires ValidRun(es) && ContractRun(es)
    ensures
      var w := Run(es);
      && NoRepeat(w.deleted)
      && (forall d :: d in w.deleted <==> d.Some? && d.value in w.connected && d.value !in w.c.active.Values)
  {
    AccountedIffContract(es);
    var w := Run(es);
    assert forall d, a :: d in w.deleted && a in w.c.active ==> w.c.active[a] != d.value;
  }

  /** Theorem: under the contract nothing is ever issued on a connection whose done
      event was handled. */
  lemma NothingAfterDone(es: seq<Event>, e: Event, a: Address)
    requires ValidRun(es) && ContractRun(es) && Enabled(Run(es), e) && e.Issue?
    requires a in Targets(Run(es).c.active, e.client)
    ensures a in Run(es).c.active && Run(es).c.active[a] !in Run(es).doneHandled
  {
    AccountedIffContract(es);
  }

  lemma ErasedHasNoName(w: World, t: Address, ok: bool, a: Address)
    requires Consistent(w) && Accounted(w) && t in w.outstanding && Contract(w, t, ok)
    requires a in w.c.active && a !in Complete(w, t, ok).c.active
    ensures forall u :: u in Complete(w, t, ok).c.tags ==> Complete(w, t, ok).c.tags[u].data != a
  {
    ReturnKeepsNames(w, t, ok);
  }

  /** Theorem: when a return erases a connection, no tag names its address any
      more, so the allocator may reuse the address at once. */
  lemma ErasedIsForgotten(es: seq<Event>, t: Address, ok: bool, a: Address)
    requires ValidRun(es + [Return(t, ok)]) && ContractRun(es + [Return(t, ok)])
    requires a in Run(es).c.active && a !in Run(es + [Return(t, ok)]).c.active
    ensures forall u :: u in Run(es + [Return(t, ok)]).c.tags ==> Run(es + [Return(t, ok)]).c.tags[u].data != a
  {
    Extend(es, Return(t, ok));
    assert (es + [Return(t, ok)])[..|es|] == es;
    AccountedIffContract(es);
    AlwaysConsistent(es);
    ErasedHasNoName(Run(es), t, ok, a);
  }

  /** The connection at `a` gone, its done tag `d` and writing tag `t` returned. */
  function Raced(w: World, d: Address, t: Address, a: Address): World
    requires a in w.c.active && w.c.active[a] in w.completed
  {
    var id := w.c.active[a];
    w.(c := Connections(w.c.next, w.c.active - {a}, w.c.processing - {a}, w.c.tags - {d, t}),
       outstanding := w.outstanding - {d, t}, deleted := w.deleted + [Some(id)],
       doneHandled := w.doneHandled + {id}, completed := w.completed[id := w.completed[id] + 1])
  }

  /** Both tags of a connection in the race are outstanding. */
  ghost predicate Racing(w: World, d: Address, t: Address, a: Address) {
    && d in w.c.tags && w.c.tags[d] == Tag(a, Done) && t in w.c.tags && w.c.tags[t] == Tag(a, Writing)
    && a in w.c.active && w.c.active[a] in w.completed && a in w.c.processing && w.c.active[a] !in w.doneHandled
  }

  lemma DoneFirst(w: World, d: Address, t: Address, a: Address, ok: bool)
    requires Racing(w, d, t, a)
    ensures Contract(w, d, ok) && Contract(Complete(w, d, ok), t, false)
    ensures Complete(Complete(w, d, ok), t, false) == Raced(w, d, t, a)
  {
    assert w.c.tags - {d} - {t} == w.c.tags - {d, t};
    assert w.outstanding - {d} - {t} == w.outstanding - {d, t};
  }

  lemma WritingFirst(w: World, d: Address, t: Address, a: Address, ok: bool)
    requires Racing(w, d, t, a)
    ensures Contract(w, t, true) && Contract(Complete(w, t, true), d, ok)
    ensures Complete(Complete(w, t, true), d, ok) == Raced(w, d, t, a)
  {
    assert w.c.tags - {t} - {d} == w.c.tags - {d, t};
    assert w.outstanding - {t} - {d} == w.outstanding - {d, t};
  }

  /** Theorem, the race: when a connection's done event and its outstanding operation
      both return, the contract admits both orders (the operation failing only after
      the done event), each deletes the connection once, and both end the same. */
  lemma RaceHasOneOutcome(es: seq<Event>, d: Address, t: Address, ok: bool)
    requires ValidRun(es) && ContractRun(es) && d in Run(es).c.tags && t in Run(es).c.tags
    requires Run(es).c.tags[d].kind == Done && Run(es).c.tags[t] == Tag(Run(es).c.tags[d].data, Writing)
    ensures var w := Run(es);
      var a := w.c.tags[d].data;
      && Racing(w, d, t, a)
      && Contract(w, d, ok) && Contract(Complete(w, d, ok), t, false)
      && Contract(w, t, true) && Contract(Complete(w, t, true), d, ok)
      && Complete(Complete(w, d, ok), t, false) == Complete(Complete(w, t, true), d, ok) == Raced(w, d, t, a)
  {
    AccountedIffContract(es);
    AlwaysConsistent(es);
    var w := Run(es);
    var a := w.c.tags[d].data;
    assert DonePending(w.c, a);
    ConsistentIsTracked(w);
    DoneFirst(w, d, t, a, ok);
    WritingFirst(w, d, t, a, ok);
  }

  /* ----------------------------------------------------------- the ledger */

  ghost function TagsOf(tags: map<Address, Tag<TagLabel>>, kind: TagLabel): set<Address> {
    set t | t in tags && tags[t].kind == kind
  }

  /** The connections named by the tags of one kind. */
  ghost function NamesOf(tags: map<Address, Tag<TagLabel>>, kind: TagLabel): set<Address> {
    set t | t in tags && tags[t].kind == kind :: tags[t].data
  }

  /** The connections whose done event is still to come. */
  ghost function AwaitingDone(w: World): set<Address> {
    NamesOf(w.c.tags, Done)
  }

  /** As many connections as tags, when no two tags say the same. */
  lemma {:induction false} OneAddressPerTag(tags: map<Address, Tag<TagLabel>>, kind: TagLabel)
    requires Distinct(tags)
    ensures |TagsOf(tags, kind)| == |NamesOf(tags, kind)|
    decreases |TagsOf(tags, kind)|
  {
    if TagsOf(tags, kind) == {} {
      assert forall t :: t in tags && tags[t].kind == kind ==> t in TagsOf(tags, kind);
    } else {
      var t :| t in TagsOf(tags, kind);
      var rest := tags - {t};
      assert TagsOf(rest, kind) == TagsOf(tags, kind) - {t};
      OneAddressPerTag(rest, kind);
      forall a ensures a in NamesOf(tags, kind) <==> a in NamesOf(rest, kind) || a == tags[t].data {
        if u :| u in tags && tags[u].kind == kind && tags[u].data == a { assert u == t || u in rest; }
        if u :| u in rest && rest[u].kind == kind && rest[u].data == a { assert u in tags; }
      }
      assert NamesOf(tags, kind) == NamesOf(rest, kind) + {tags[t].data};
      assert tags[t].data !in NamesOf(rest, kind);
    }
  }

  lemma PendingIsAwaiting(w: World, a: Address)
    ensures a in AwaitingDone(w) <==> DonePending(w.c, a)
  {
    if DonePending(w.c, a) {
      var t :| t in w.c.tags && w.c.tags[t] == Tag(a, Done);
      assert t in w.c.tags && w.c.tags[t].kind == Done && w.c.tags[t].data == a;
    }
    if a in AwaitingDone(w) {
      var t :| t in w.c.tags && w.c.tags[t].kind == Done && w.c.tags[t].data == a;
      assert w.c.tags[t] == Tag(a, Done);
    }
  }

  lemma CountTags(w: World)
    requires OneInFlight(w) && Distinct(w.c.tags)
    ensures |w.outstanding| == |w.c.processing| + |AwaitingDone(w)|
  {
    var writing, done := TagsOf(w.c.tags, Writing), TagsOf(w.c.tags, Done);
    assert w.outstanding == writing + done && writing !! done;
    OneAddressPerTag(w.c.tags, Writing);
    OneAddressPerTag(w.c.tags, Done);
    WritingIsProcessing(w);
  }

  lemma WritingIsProcessing(w: World)
    requires OneInFlight(w)
    ensures NamesOf(w.c.tags, Writing) == w.c.processing
  {
    forall a | a in w.c.processing ensures a in NamesOf(w.c.tags, Writing) {
      var t :| t in w.c.tags && w.c.tags[t] == Tag(a, Writing);
      assert w.c.tags[t].kind == Writing;
    }
  }

  /** The connections whose done event is still to come are the waiting one and the
      active ones that are not marked. */
  lemma AwaitingIsUnmarked(w: World, a: Address)
    requires Consistent(w) && Accounted(w)
    ensures a in AwaitingDone(w) <==>
      (a in w.c.active && w.c.active[a] !in w.doneHandled) || (w.c.next.Some? && w.c.next.value.key == a)
  {
    PendingIsAwaiting(w, a);
  }

  /** Every connection ever made waits or has connected, and none is deleted before
      its done event was handled. */
  ghost predicate DoneBeforeGone(w: World) {
    && (forall id :: 0 <= id < w.created ==> id in w.connected || (w.c.next.Some? && w.c.next.value.id == id))
    && (forall id :: Some(id) in w.deleted ==> id in w.doneHandled)
  }

  lemma ReturnKeepsDoneBeforeGone(w: World, t: Address, ok: bool)
    requires DoneBeforeGone(w) && Contract(w, t, ok)
    ensures DoneBeforeGone(Complete(w, t, ok))
  {
  }

  lemma AcceptKeepsDoneBeforeGone(w: World, conn: Address, tag: Address)
    requires DoneBeforeGone(w)
    ensures DoneBeforeGone(Activate(w, conn, tag))
  {
    var v := Activate(w, conn, tag);
    if w.c.next.Some? { assert v.connected[|w.connected|] == w.c.next.value.id; }
    forall id | id in w.connected ensures id in v.connected { }
  }

  lemma StepKeepsDoneBeforeGone(w: World, e: Event)
    requires w.outstanding == w.c.tags.Keys && DoneBeforeGone(w) && Enabled(w, e) && Honoured(w, e)
    ensures DoneBeforeGone(Apply(w, e))
  {
    match e
    case Accept(conn, tag) => AcceptKeepsDoneBeforeGone(w, conn, tag);
    case Issue(_, _, _) =>
    case Return(t, ok) => ReturnKeepsDoneBeforeGone(w, t, ok);
  }

  lemma {:induction false} AlwaysDoneBeforeGone(es: seq<Event>)
    requires ValidRun(es) && ContractRun(es)
    ensures DoneBeforeGone(Run(es))
  {
    if es == [] {
    } else {
      var past := es[..|es| - 1];
      AlwaysDoneBeforeGone(past);
      AlwaysConsistent(past);
      StepKeepsDoneBeforeGone(Run(past), es[|es| - 1]);
    }
  }

  /** The connections ever made whose done event is unhandled, by serial number. */
  ghost function Undone(w: World): set<nat> {
    set id: nat | id < w.created && id !in w.doneHandled
  }

  lemma ValuesOfMore(m: map<Address, nat>, a: Address, id: nat, more: map<Address, nat>)
    requires a in more && more[a] == id && m == more - {a} && forall b :: b in m ==> m[b] != id
    ensures more.Values == m.Values + {id} && id !in m.Values
  {
    forall v ensures v in more.Values <==> v in m.Values + {id} {
      if v in more.Values {
        var b :| b in more && more[b] == v;
        assert b == a || (b in m && m[b] == v);
      }
      if v in m.Values {
        var b :| b in m && m[b] == v;
        assert more[b] == v;
      }
    }
  }

  lemma {:induction false} SameSize(f: map<Address, nat>)
    requires forall a, b :: a in f && b in f && f[a] == f[b] ==> a == b
    ensures |f.Keys| == |f.Values|
    decreases |f|
  {
    if f == map[] {
      assert f.Values == {};
    } else {
      var a :| a in f;
      var rest := f - {a};
      SameSize(rest);
      assert f.Keys == rest.Keys + {a};
      ValuesOfMore(rest, a, f[a], f);
    }
  }

  predicate Unmarked(w: World, id: nat) {
    (id in w.c.active.Values && id !in w.doneHandled) || (w.c.next.Some? && w.c.next.value.id == id)
  }

  lemma UndoneIsUnmarked(w: World, id: nat)
    requires Accounted(w) && DoneBeforeGone(w) && SerialNumbers(w)
    ensures id in Undone(w) <==> Unmarked(w, id)
  {
    if id in Undone(w) && !(w.c.next.Some? && w.c.next.value.id == id) {
      assert id in w.connected && Some(id) !in w.deleted;
    }
  }

  /** One address awaiting its done event for each serial number that does. */
  lemma SameUnmarked(w: World, awaiting: set<Address>, undone: set<nat>)
    requires SerialNumbers(w) && forall id :: id in undone <==> Unmarked(w, id)
    requires forall a :: a in awaiting <==>
      (a in w.c.active && w.c.active[a] !in w.doneHandled) || (w.c.next.Some? && w.c.next.value.key == a)
    ensures |awaiting| == |undone|
  {
    var f := map a | a in awaiting :: if a in w.c.active then w.c.active[a] else w.c.next.value.id;
    forall id | id in undone ensures id in f.Values {
      if w.c.next.Some? && w.c.next.value.id == id {
        assert f[w.c.next.value.key] == id;
      } else {
        var a :| a in w.c.active && w.c.active[a] == id;
        assert f[a] == id;
      }
    }
    forall a | a in f ensures f[a] in undone {
      assert a in w.c.active ==> w.c.active[a] in w.c.active.Values;
    }
    assert f.Keys == awaiting && f.Values == undone;
    SameSize(f);
  }

  lemma AwaitingIsUndone(w: World)
    requires Consistent(w) && Accounted(w) && DoneBeforeGone(w)
    ensures |AwaitingDone(w)| == |Undone(w)| && forall id :: id in Undone(w) <==> Unmarked(w, id)
  {
    forall a: Address ensures a in AwaitingDone(w) <==>
        (a in w.c.active && w.c.active[a] !in w.doneHandled) || (w.c.next.Some? && w.c.next.value.key == a)
    {
      AwaitingIsUnmarked(w, a);
    }
    forall id: nat ensures id in Undone(w) <==> Unmarked(w, id) { UndoneIsUnmarked(w, id); }
    SameUnmarked(w, AwaitingDone(w), Undone(w));
  }

  /** Theorem: under the contract gRPC holds one tag for each operation in flight and
      one for each connection ever made whose done event is unhandled; these are the
      waiting one and those active ones that are not marked. */
  lemma {:induction false} TagCount(es: seq<Event>)
    requires ValidRun(es) && ContractRun(es)
    ensures |Run(es).outstanding| == |Run(es).c.processing| + |Undone(Run(es))|
    ensures forall id :: id in Undone(Run(es)) <==> Unmarked(Run(es), id)
  {
    AccountedIffContract(es);
    AlwaysConsistent(es);
    AlwaysDoneBeforeGone(es);
    CountTags(Run(es));
    AwaitingIsUndone(Run(es));
  }

  lemma {:induction false} NextStays(es: seq<Event>)
    requires ValidRun(es)
    ensures Run(es).c.next.Some? <==> exists k :: 0 <= k < |es| && es[k].Accept?
  {
    if es == [] {
    } else {
      var past := es[..|es| - 1];
      NextStays(past);
      if k :| 0 <= k < |past| && past[k].Accept? { assert es[k].Accept?; }
      if k :| 0 <= k < |es| && es[k].Accept? { assert k == |past| || past[k].Accept?; }
    }
  }

  /** Theorem: once gRPC holds a single tag (the done tag of the connection that
      waits for a client), everybody who ever connected has been deleted. */
  lemma AllGone(es: seq<Event>)
    requires ValidRun(es) && ContractRun(es) && |Run(es).outstanding| <= 1
    ensures Run(es).c.active == map[] && forall id :: id in Run(es).connected <==> Some(id) in Run(es).deleted
  {
    AccountedIffContract(es);
    AlwaysConsistent(es);
    NextStays(es);
    var w := Run(es);
    CountTags(w);
    forall a: Address ensures a in AwaitingDone(w) <==>
        (a in w.c.active && w.c.active[a] !in w.doneHandled) || (w.c.next.Some? && w.c.next.value.key == a)
    {
      AwaitingIsUnmarked(w, a);
    }
    if w.c.next.Some? {
      var n := w.c.next.value.key;
      assert {n} <= AwaitingDone(w);
      assert |AwaitingDone(w) - {n}| == |AwaitingDone(w)| - 1;
      assert AwaitingDone(w) - {n} == {} && w.c.processing == {};
    } else {
      NobodyBeforeAccept(es);
    }
    assert forall a :: a !in w.c.active;
    assert w.c.active.Values == {};
  }

  lemma {:induction false} NobodyBeforeAccept(es: seq<Event>)
    requires ValidRun(es) && Run(es).c.next == None
    ensures Run(es).c.active == map[]
  {
    if es == [] {
    } else {
      NobodyBeforeAccept(es[..|es| - 1]);
      AlwaysConsistent(es[..|es| - 1]);
    }
  }

  /* ------------------------------------------------- without the contract */

  /** Two connections wait and connect in turn; a write to the first fails before
      its done event, which then arrives for an object that no longer exists. */
  const BREACH: seq<Event> := [Accept(1, 10)] + [Accept(2, 11)] + [Issue(Write(7), None, map[12 := 1])]
      + [Return(12, false)] + [Return(10, true)]

  lemma BreachAccepts(s1: seq<Event>, s2: seq<Event>)
    requires s1 == [Accept(1, 10)] && s2 == s1 + [Accept(2, 11)]
    ensures ValidRun(s2) && Run(s2).outstanding == {10, 11} && Run(s2).deleted == [] && Run(s2).c == LIVE
  {
    assert s1 == [] + [Accept(1, 10)];
    Extend([], Accept(1, 10));
    Extend(s1, Accept(2, 11));
  }

  lemma BreachFirstHalf() returns (w: World)
    ensures ValidRun(BREACH[..3]) && w == Run(BREACH[..3])
    ensures w.deleted == [] && w.outstanding == {10, 11, 12} && w.c == BUSY
  {
    var s1 := [Accept(1, 10)];
    var s2 := s1 + [Accept(2, 11)];
    var batch: map<Address, Address> := map[12 := 1];
    BreachAccepts(s1, s2);
    BroadcastToOne(Run(s2), Write(7), batch);
    Extend(s2, Issue(Write(7), None, batch));
    assert BREACH[..3] == s2 + [Issue(Write(7), None, batch)];
    w := Run(BREACH[..3]);
  }

  lemma DanglingWithoutContract()
    ensures ValidRun(BREACH) && !ContractRun(BREACH)
    ensures Run(BREACH).deleted == [Some(0), None]
  {
    var w := BreachFirstHalf();
    assert BREACH[..4] == BREACH[..3] + [Return(12, false)];
    assert BREACH == BREACH[..4] + [Return(10, true)];
    Extend(BREACH[..3], Return(12, false));
    assert Run(BREACH[..4]).c == Connections(Some(Waiting(2, 1)), map[], {},
        map[10 := Tag(1, Done), 11 := Tag(2, Done)]);
    Extend(BREACH[..4], Return(10, true));
    assert BREACH[..|BREACH| - 1] == BREACH[..4];
  }
}
