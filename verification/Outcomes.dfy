/**
 Publish outcomes (port/outcome.go): finite error trees, searched the way
 errors.As searches them. A BatchError lists its entries in Go's map order, which
 is unspecified; an `Order` stands for whatever order the runtime picks.
 */
module Outcomes {
  import opened Messages

  type Entries = map<Id, Option<Err>>

  datatype Err =
    | Plain(text: string)
    | LeaseLost                              // the sentinel ErrLeaseLost
    | Wrapped(text: string, inner: Err)      // fmt.Errorf with one %w
    | Joined(causes: seq<Err>)               // errors.Join, or several %w
    | Permanent(cause: Option<Err>)
    | RetryAfter(cause: Option<Err>, delay: Duration)
    | Discard(cause: Option<Err>)
    | Abort(cause: Option<Err>)
    | Panic(shown: string, cause: Option<Err>)
    | Batch(outcomes: Entries, others: Option<Err>)

  datatype Marker = IsPermanent | IsRetryAfter | IsDiscard | IsAbort | IsPanic | IsBatch

  predicate Marked(e: Err, k: Marker) {
    match k
    case IsPermanent => e.Permanent?
    case IsRetryAfter => e.RetryAfter?
    case IsDiscard => e.Discard?
    case IsAbort => e.Abort?
    case IsPanic => e.Panic?
    case IsBatch => e.Batch?
  }

  type Order = Entries -> seq<Id>

  /** An enumeration visits every entry. */
  ghost predicate ValidOrder(order: Order) {
    forall m: Entries, id :: id in m ==> id in order(m)
  }

  // ---- Error --------------------------------------------------------------------

  function Failed(m: Entries): set<Id> {
    set id | id in m && m[id].Some?
  }

  /** BatchError.Error: the loop that counts the failed entries. */
  method CountFailed(outcomes: Entries) returns (failed: nat)
    ensures failed == |set id | id in outcomes && outcomes[id].Some?|
  {
    failed := 0;
    var todo := outcomes.Keys;
    ghost var counted: set<Id> := {};
    while todo != {}
      invariant todo <= outcomes.Keys
      invariant counted == (set id | id in outcomes && id !in todo && outcomes[id].Some?)
      invariant failed == |counted|
    {
      var id :| id in todo;
      if outcomes[id].Some? {
        failed := failed + 1;
        counted := counted + {id};
      }
      todo := todo - {id};
    }
    assert counted == Failed(outcomes);
  }

  // ---- Unwrap -----------------------------------------------------------------

  /** The non-nil entries, in the order of `ids`. */
  function Listed(m: Entries, ids: seq<Id>): (errs: seq<Err>)
    ensures forall e :: e in errs ==> exists id :: id in m && m[id] == Some(e)
    ensures forall id :: id in ids && id in m && m[id].Some? ==> m[id].value in errs
  {
    if ids == [] then [] else Optional(EntryOf(m, ids[0])) + Listed(m, ids[1..])
  }

  function EntryOf(m: Entries, id: Id): Option<Err> {
    if id in m then m[id] else None
  }

  function Optional(e: Option<Err>): seq<Err> {
    if e.Some? then [e.value] else []
  }

  /** What Unwrap returns at each node. */
  function Children(e: Err, order: Order): (cs: seq<Err>)
    ensures forall i :: 0 <= i < |cs| ==> cs[i] < e
  {
    match e
    case Plain(_) => []
    case LeaseLost => []
    case Wrapped(_, inner) => [inner]
    case Joined(causes) => causes
    case Batch(outcomes, others) =>
      var listed := Listed(outcomes, order(outcomes));
      assert forall i :: 0 <= i < |listed| ==> listed[i] in listed;
      Optional(others) + listed
    case _ => Optional(e.cause)
  }

  /**
   BatchError.Unwrap: the loop over the map, visiting it in some order `ids`. The
   default error comes first, then every non-nil entry, and nothing else.
   */
  method UnwrapBatch(outcomes: Entries, others: Option<Err>) returns (errs: seq<Err>, ghost ids: seq<Id>)
    ensures others.Some? ==> |errs| > 0 && errs[0] == others.value
    ensures forall e :: e in errs ==> others == Some(e) || exists id :: id in outcomes && outcomes[id] == Some(e)
    ensures forall id :: id in outcomes && outcomes[id].Some? ==> outcomes[id].value in errs
    ensures errs == Optional(others) + Listed(outcomes, ids)
    ensures forall id :: id in ids <==> id in outcomes
    ensures |ids| == |outcomes|
  {
    errs := Optional(others);
    ids := [];
    var todo := outcomes.Keys;
    while todo != {}
      invariant todo <= outcomes.Keys
      invariant forall id :: id in ids <==> id in outcomes && id !in todo
      invariant |ids| + |todo| == |outcomes.Keys|
      invariant errs == Optional(others) + Listed(outcomes, ids)
    {
      var id :| id in todo;
      NextListed(outcomes, others, ids, id);
      if outcomes[id].Some? {
        errs := errs + [outcomes[id].value];
      }
      ids := ids + [id];
      todo := todo - {id};
    }
    AllListed(outcomes, others, ids);
  }

  lemma AllListed(outcomes: Entries, others: Option<Err>, ids: seq<Id>)
    requires forall id :: id in outcomes ==> id in ids
    ensures var errs := Optional(others) + Listed(outcomes, ids);
            && (others.Some? ==> |errs| > 0 && errs[0] == others.value)
            && (forall e :: e in errs ==> others == Some(e) || exists id :: id in outcomes && outcomes[id] == Some(e))
            && (forall id :: id in outcomes && outcomes[id].Some? ==> outcomes[id].value in errs)
  {
  }

  lemma NextListed(outcomes: Entries, others: Option<Err>, ids: seq<Id>, id: Id)
    ensures Optional(others) + Listed(outcomes, ids + [id]) ==
            (Optional(others) + Listed(outcomes, ids)) + Optional(EntryOf(outcomes, id))
  {
    ListedAppend(outcomes, ids, id);
    assert Listed(outcomes, [id]) == Optional(EntryOf(outcomes, id));
  }

  lemma FirstListed(m: Entries, id: Id, rest: seq<Id>)
    ensures Listed(m, [id] + rest) == Optional(EntryOf(m, id)) + Listed(m, rest)
  {
    assert ([id] + rest)[1..] == rest;
  }

  lemma Associate<T>(a: seq<T>, b: seq<T>, c: seq<T>)
    ensures a + (b + c) == (a + b) + c
  {
  }

  lemma {:induction false} ListedAppend(m: Entries, ids: seq<Id>, id: Id)
    ensures Listed(m, ids + [id]) == Listed(m, ids) + Listed(m, [id])
  {
    if ids == [] {
      assert ids + [id] == [id];
    } else {
      ListedAppend(m, ids[1..], id);
      FirstListed(m, ids[0], ids[1..] + [id]);
      assert ids + [id] == [ids[0]] + (ids[1..] + [id]);
      Associate(Optional(EntryOf(m, ids[0])), Listed(m, ids[1..]), Listed(m, [id]));
    }
  }

  // ---- errors.As ----------------------------------------------------------------

  /** The first node carrying the marker, in preorder. */
  function As(e: Err, k: Marker, order: Order): Option<Err>
    decreases e, 1, 0
  {
    if Marked(e, k) then Some(e) else AsAny(e, Children(e, order), k, order)
  }

  function AsAny(parent: Err, cs: seq<Err>, k: Marker, order: Order): Option<Err>
    requires forall i :: 0 <= i < |cs| ==> cs[i] < parent
    decreases parent, 0, |cs|
  {
    if cs == [] then None
    else
      var first := As(cs[0], k, order);
      if first.Some? then first else AsAny(parent, cs[1..], k, order)
  }

  /** The tree carries the marker somewhere; no order involved. */
  ghost predicate Has(e: Err, k: Marker) {
    Marked(e, k) ||
    match e
    case Plain(_) => false
    case LeaseLost => false
    case Wrapped(_, inner) => Has(inner, k)
    case Joined(causes) => exists i :: 0 <= i < |causes| && Has(causes[i], k)
    case Batch(outcomes, others) =>
      || (others.Some? && Has(others.value, k))
      || (exists id :: id in outcomes && outcomes[id].Some? && Has(outcomes[id].value, k))
    case _ => e.cause.Some? && Has(e.cause.value, k)
  }

  lemma ChildrenHave(e: Err, k: Marker, order: Order)
    requires ValidOrder(order)
    ensures Has(e, k) <==> Marked(e, k) || exists c :: c in Children(e, order) && Has(c, k)
  {
    var cs := Children(e, order);
    forall c | c in cs && Has(c, k) ensures Has(e, k) {
      if e.Batch? && c in Listed(e.outcomes, order(e.outcomes)) {
        var id :| id in e.outcomes && e.outcomes[id] == Some(c);
      }
    }
    if Has(e, k) && !Marked(e, k) {
      match e
      case Plain(_) =>
      case LeaseLost =>
      case Wrapped(_, inner) => assert cs == [inner] && cs[0] in cs;
      case Joined(causes) =>
        var i :| 0 <= i < |causes| && Has(causes[i], k);
        assert causes[i] in cs;
      case Batch(outcomes, others) =>
        if others.Some? && Has(others.value, k) {
          assert others.value == cs[0] && cs[0] in cs;
        } else {
          var id :| id in outcomes && outcomes[id].Some? && Has(outcomes[id].value, k);
          assert id in order(outcomes) && outcomes[id].value in Listed(outcomes, order(outcomes));
          assert outcomes[id].value in cs;
        }
      case _ => assert cs == [e.cause.value] && cs[0] in cs;
    }
  }

  /**
   errors.As succeeds exactly when the tree carries the marker, in whatever order
   maps are enumerated; and what it returns does carry it and lies in the tree.
   */
  lemma {:induction false} AsFinds(e: Err, k: Marker, order: Order)
    requires ValidOrder(order)
    ensures As(e, k, order).Some? <==> Has(e, k)
    ensures As(e, k, order).Some? ==>
      Marked(As(e, k, order).value, k) && forall l :: Has(As(e, k, order).value, l) ==> Has(e, l)
    decreases e, 1, 0
  {
    if !Marked(e, k) {
      ChildrenHave(e, k, order);
      AsAnyFinds(e, Children(e, order), k, order);
      if As(e, k, order).Some? {
        var found := As(e, k, order).value;
        forall l | Has(found, l) ensures Has(e, l) { ChildrenHave(e, l, order); }
      }
    }
  }

  lemma {:induction false} AsAnyFinds(parent: Err, cs: seq<Err>, k: Marker, order: Order)
    requires ValidOrder(order) && forall i :: 0 <= i < |cs| ==> cs[i] < parent
    ensures AsAny(parent, cs, k, order).Some? <==> exists c :: c in cs && Has(c, k)
    ensures AsAny(parent, cs, k, order).Some? ==>
      && Marked(AsAny(parent, cs, k, order).value, k)
      && (forall l :: Has(AsAny(parent, cs, k, order).value, l) ==> exists c :: c in cs && Has(c, l))
    decreases parent, 0, |cs|
  {
    if cs != [] {
      AsFinds(cs[0], k, order);
      AsAnyFinds(parent, cs[1..], k, order);
      assert forall c :: c in cs <==> c == cs[0] || c in cs[1..];
      if AsAny(parent, cs, k, order).Some? {
        var found := AsAny(parent, cs, k, order).value;
        forall l | Has(found, l) ensures exists c :: c in cs && Has(c, l) {
          if As(cs[0], k, order).Some? {
            assert Has(cs[0], l);
          } else {
            var c :| c in cs[1..] && Has(c, l);
            assert c in cs;
          }
        }
      }
    }
  }

  // ---- what decides a batch ---------------------------------------------------------

  /** isFatal: Abort and Panic always stop the relay, anything else through the classifier. */
  predicate IsFatal(e: Err, ctxDone: bool, fatal: Err -> bool, order: Order) {
    || As(e, IsAbort, order).Some?
    || As(e, IsPanic, order).Some?
    || (!ctxDone && fatal(e))
  }

  /** The BatchError found first is the outermost one, on a path that crosses no map. */
  lemma {:induction false} FirstBatchOrderFree(e: Err, o1: Order, o2: Order)
    ensures As(e, IsBatch, o1) == As(e, IsBatch, o2)
    decreases e, 1, 0
  {
    if !e.Batch? {
      assert Children(e, o1) == Children(e, o2);
      AnyBatchOrderFree(e, Children(e, o1), o1, o2);
    }
  }

  lemma {:induction false} AnyBatchOrderFree(parent: Err, cs: seq<Err>, o1: Order, o2: Order)
    requires forall i :: 0 <= i < |cs| ==> cs[i] < parent
    ensures AsAny(parent, cs, IsBatch, o1) == AsAny(parent, cs, IsBatch, o2)
    decreases parent, 0, |cs|
  {
    if cs != [] {
      FirstBatchOrderFree(cs[0], o1, o2);
      AnyBatchOrderFree(parent, cs[1..], o1, o2);
    }
  }

  /**
   Every decision taken on a Publish error - stop, settle per message, dead,
   discarded, retry - is a function of the markers in the tree, and of nothing
   that map order or wrapping could change.
   */
  lemma DecisionIsOrderFree(e: Err, ctxDone: bool, fatal: Err -> bool, o1: Order, o2: Order)
    requires ValidOrder(o1) && ValidOrder(o2)
    ensures IsFatal(e, ctxDone, fatal, o1) == (Has(e, IsAbort) || Has(e, IsPanic) || (!ctxDone && fatal(e)))
    ensures IsFatal(e, ctxDone, fatal, o1) == IsFatal(e, ctxDone, fatal, o2)
    ensures As(e, IsBatch, o1) == As(e, IsBatch, o2)
    ensures forall k :: As(e, k, o1).Some? == As(e, k, o2).Some?
  {
    AsFinds(e, IsAbort, o1);
    AsFinds(e, IsAbort, o2);
    AsFinds(e, IsPanic, o1);
    AsFinds(e, IsPanic, o2);
    FirstBatchOrderFree(e, o1, o2);
    forall k ensures As(e, k, o1).Some? == As(e, k, o2).Some? {
      AsFinds(e, k, o1);
      AsFinds(e, k, o2);
    }
  }

  lemma WrappingIsTransparent(e: Err, text: string, k: Marker, order: Order)
    ensures As(Wrapped(text, e), k, order) == As(e, k, order)
    ensures As(Joined([e]), k, order) == As(e, k, order)
  {
    var w, j := Wrapped(text, e), Joined([e]);
    assert Children(w, order) == [e] && Children(j, order) == [e];
    assert AsAny(w, [e][1..], k, order) == None && AsAny(j, [e][1..], k, order) == None;
  }

  /** Which errors are what, and what they wrap: the markers of port/outcome.go, read off the constructors. */
  lemma MarkersInColumns(c: Option<Err>, d: Duration, text: string, k: Marker)
    ensures !Has(Plain(text), k) && !Has(LeaseLost, k)
    ensures Has(Permanent(c), k) <==> k == IsPermanent || (c.Some? && Has(c.value, k))
    ensures Has(RetryAfter(c, d), k) <==> k == IsRetryAfter || (c.Some? && Has(c.value, k))
    ensures Has(Discard(c), k) <==> k == IsDiscard || (c.Some? && Has(c.value, k))
    ensures Has(Abort(c), k) <==> k == IsAbort || (c.Some? && Has(c.value, k))
    ensures Has(Panic(text, c), k) <==> k == IsPanic || (c.Some? && Has(c.value, k))
  {
  }

  /** ... and for the nodes with several children. */
  lemma MarkersOfMany(causes: seq<Err>, outcomes: Entries, others: Option<Err>, k: Marker)
    ensures Has(Joined(causes), k) <==> exists i :: 0 <= i < |causes| && Has(causes[i], k)
    ensures Has(Batch(outcomes, others), k) <==>
            k == IsBatch || (others.Some? && Has(others.value, k))
            || exists id :: id in outcomes && outcomes[id].Some? && Has(outcomes[id].value, k)
  {
  }

  /** errors.As stops at the first match in preorder: the node itself, else the first child that has one. */
  lemma FirstMatch(e: Err, k: Marker, order: Order)
    requires ValidOrder(order)
    ensures Marked(e, k) ==> As(e, k, order) == Some(e)
    ensures forall i :: 0 <= i < |Children(e, order)| && !Marked(e, k) && Has(Children(e, order)[i], k)
                        && (forall j :: 0 <= j < i ==> !Has(Children(e, order)[j], k)) ==>
              As(e, k, order) == As(Children(e, order)[i], k, order)
  {
    var cs := Children(e, order);
    forall i | 0 <= i < |cs| && !Marked(e, k) && Has(cs[i], k) && (forall j :: 0 <= j < i ==> !Has(cs[j], k))
      ensures As(e, k, order) == As(cs[i], k, order)
    {
      AnyIsFirstMatch(e, cs, k, order, i);
    }
  }

  lemma {:induction false} AnyIsFirstMatch(parent: Err, cs: seq<Err>, k: Marker, order: Order, i: nat)
    requires ValidOrder(order) && forall j :: 0 <= j < |cs| ==> cs[j] < parent
    requires i < |cs| && Has(cs[i], k) && forall j :: 0 <= j < i ==> !Has(cs[j], k)
    ensures AsAny(parent, cs, k, order) == As(cs[i], k, order)
    decreases i
  {
    AsFinds(cs[0], k, order);
    if i > 0 { AnyIsFirstMatch(parent, cs[1..], k, order, i - 1); }
  }

  /** A marker in any entry, or in the default outcome, of the batch that is found shows at the root. */
  lemma EntriesShowAtRoot(e: Err, k: Marker, order: Order, outcome: Err)
    requires ValidOrder(order) && As(e, IsBatch, order).Some?
    requires var b := As(e, IsBatch, order).value;
             b.Batch? && (b.others == Some(outcome) || exists id :: id in b.outcomes && b.outcomes[id] == Some(outcome))
    requires Has(outcome, k)
    ensures Has(e, k)
  {
    AsFinds(e, IsBatch, order);
    var b := As(e, IsBatch, order).value;
    if b.others != Some(outcome) {
      var id :| id in b.outcomes && b.outcomes[id] == Some(outcome);
      assert Has(b.outcomes[id].value, k);
    }
    assert Has(b, k);
  }

  // ---- the requested retry delay --------------------------------------------------------

  function RequestedDelay(e: Err, order: Order): Option<Duration> {
    var r := As(e, IsRetryAfter, order);
    if r.Some? && r.value.RetryAfter? then Some(r.value.delay) else None
  }

  /** `r` is the first RetryAfter of the tree under some enumeration of its maps. */
  ghost predicate MayComeFirst(e: Err, r: Err) {
    match e
    case Plain(_) => false
    case LeaseLost => false
    case RetryAfter(_, _) => r == e
    case Wrapped(_, inner) => MayComeFirst(inner, r)
    case Joined(causes) =>
      exists i :: 0 <= i < |causes| && MayComeFirst(causes[i], r) && NoRetryBefore(causes, i)
    case Batch(outcomes, others) =>
      if others.Some? && Has(others.value, IsRetryAfter) then MayComeFirst(others.value, r)
      else exists id :: id in outcomes && outcomes[id].Some? && MayComeFirst(outcomes[id].value, r)
    case _ => e.cause.Some? && MayComeFirst(e.cause.value, r)
  }

  ghost predicate NoRetryBefore(causes: seq<Err>, i: nat) {
    forall j :: 0 <= j < i && j < |causes| ==> !Has(causes[j], IsRetryAfter)
  }

  lemma {:induction false} AsAnyIsFirst(parent: Err, cs: seq<Err>, order: Order) returns (i: nat)
    requires ValidOrder(order) && forall i :: 0 <= i < |cs| ==> cs[i] < parent
    requires AsAny(parent, cs, IsRetryAfter, order).Some?
    ensures i < |cs| && As(cs[i], IsRetryAfter, order) == AsAny(parent, cs, IsRetryAfter, order)
    ensures NoRetryBefore(cs, i)
    decreases |cs|
  {
    AsFinds(cs[0], IsRetryAfter, order);
    if As(cs[0], IsRetryAfter, order).Some? {
      i := 0;
    } else {
      i := AsAnyIsFirst(parent, cs[1..], order);
      NoRetryBeforeNext(cs, i);
      i := i + 1;
    }
  }

  lemma NoRetryBeforeNext(cs: seq<Err>, i: nat)
    requires cs != [] && !Has(cs[0], IsRetryAfter) && NoRetryBefore(cs[1..], i)
    ensures NoRetryBefore(cs, i + 1)
  {
    forall j | 0 <= j < i + 1 && j < |cs| ensures !Has(cs[j], IsRetryAfter) {
      if j > 0 { assert cs[1..][j - 1] == cs[j]; }
    }
  }

  lemma {:induction false} AsAnySkips(parent: Err, cs: seq<Err>, order: Order, i: nat)
    requires ValidOrder(order) && forall j :: 0 <= j < |cs| ==> cs[j] < parent
    requires i < |cs| && NoRetryBefore(cs, i) && As(cs[i], IsRetryAfter, order).Some?
    ensures AsAny(parent, cs, IsRetryAfter, order) == As(cs[i], IsRetryAfter, order)
    decreases i
  {
    if i > 0 {
      AsFinds(cs[0], IsRetryAfter, order);
      assert NoRetryBefore(cs[1..], i - 1);
      AsAnySkips(parent, cs[1..], order, i - 1);
    }
  }

  /** Whatever the runtime finds first may come first. */
  lemma {:induction false} FoundMayComeFirst(e: Err, order: Order)
    requires ValidOrder(order) && As(e, IsRetryAfter, order).Some?
    ensures MayComeFirst(e, As(e, IsRetryAfter, order).value)
    decreases e
  {
    if !e.RetryAfter? {
      var cs := Children(e, order);
      var i := AsAnyIsFirst(e, cs, order);
      var r := As(e, IsRetryAfter, order).value;
      FoundMayComeFirst(cs[i], order);
      AsFinds(cs[i], IsRetryAfter, order);
      match e
      case Plain(_) =>
      case LeaseLost =>
      case Wrapped(_, inner) =>
      case Joined(causes) =>
      case Batch(outcomes, others) =>
        var listed := Listed(outcomes, order(outcomes));
        if others.Some? {
          assert cs[0] == others.value;
          assert i > 0 ==> !Has(cs[0], IsRetryAfter) && cs[i] == listed[i - 1];
        }
        if !(others.Some? && i == 0) {
          assert cs[i] in listed;
          var id :| id in outcomes && outcomes[id] == Some(cs[i]);
          assert MayComeFirst(outcomes[id].value, r);
        }
      case _ =>
    }
  }

  // An enumeration that finds a given RetryAfter first is built map by map: a map
  // cannot occur inside its own entries, so each choice is independent.

  ghost predicate Occurs(m: Entries, e: Err) {
    match e
    case Plain(_) => false
    case LeaseLost => false
    case Wrapped(_, inner) => Occurs(m, inner)
    case Joined(causes) => exists i :: 0 <= i < |causes| && Occurs(m, causes[i])
    case Batch(outcomes, others) =>
      || m == outcomes
      || (others.Some? && Occurs(m, others.value))
      || (exists id :: id in outcomes && outcomes[id].Some? && Occurs(m, outcomes[id].value))
    case _ => e.cause.Some? && Occurs(m, e.cause.value)
  }

  lemma {:induction false} EntriesAreSmaller(m: Entries, e: Err, id: Id)
    requires Occurs(m, e) && id in m && m[id].Some?
    ensures m[id].value < e
    decreases e
  {
    match e
    case Wrapped(_, inner) => EntriesAreSmaller(m, inner, id);
    case Joined(causes) =>
      var i :| 0 <= i < |causes| && Occurs(m, causes[i]);
      EntriesAreSmaller(m, causes[i], id);
    case Batch(outcomes, others) =>
      if m != outcomes {
        if others.Some? && Occurs(m, others.value) {
          EntriesAreSmaller(m, others.value, id);
        } else {
          var other :| other in outcomes && outcomes[other].Some? && Occurs(m, outcomes[other].value);
          EntriesAreSmaller(m, outcomes[other].value, id);
        }
      }
    case Plain(_) =>
    case LeaseLost =>
    case _ => EntriesAreSmaller(m, e.cause.value, id);
  }

  ghost predicate AgreeExceptOn(m: Entries, o1: Order, o2: Order) {
    forall other: Entries :: other != m ==> o1(other) == o2(other)
  }

  lemma {:induction false} AsIgnoresOtherMaps(e: Err, k: Marker, m: Entries, o1: Order, o2: Order)
    requires AgreeExceptOn(m, o1, o2) && !Occurs(m, e)
    ensures As(e, k, o1) == As(e, k, o2)
    decreases e, 1, 0
  {
    if !Marked(e, k) {
      assert Children(e, o1) == Children(e, o2);
      var cs := Children(e, o1);
      forall i | 0 <= i < |cs| ensures !Occurs(m, cs[i]) {
        ChildAvoids(e, o1, m, i);
      }
      AnyIgnoresOtherMaps(e, cs, k, m, o1, o2);
    }
  }

  lemma ChildAvoids(e: Err, order: Order, m: Entries, i: nat)
    requires !Occurs(m, e) && i < |Children(e, order)|
    ensures !Occurs(m, Children(e, order)[i])
  {
    if e.Batch? {
      var listed := Listed(e.outcomes, order(e.outcomes));
      var c := Children(e, order)[i];
      if !(e.others.Some? && i == 0) {
        assert c == listed[if e.others.Some? then i - 1 else i] && c in listed;
      }
    }
  }

  lemma {:induction false} AnyIgnoresOtherMaps(parent: Err, cs: seq<Err>, k: Marker, m: Entries, o1: Order, o2: Order)
    requires forall i :: 0 <= i < |cs| ==> cs[i] < parent
    requires AgreeExceptOn(m, o1, o2) && forall i :: 0 <= i < |cs| ==> !Occurs(m, cs[i])
    ensures AsAny(parent, cs, k, o1) == AsAny(parent, cs, k, o2)
    decreases parent, 0, |cs|
  {
    if cs != [] {
      AsIgnoresOtherMaps(cs[0], k, m, o1, o2);
      AnyIgnoresOtherMaps(parent, cs[1..], k, m, o1, o2);
    }
  }

  function VisitFirst(m: Entries, id: Id, order: Order): Order {
    (other: Entries) => if other == m then [id] + order(other) else order(other)
  }

  ghost function Elements(s: set<Id>): (ids: seq<Id>)
    ensures forall id :: id in s ==> id in ids
  {
    if s == {} then [] else var id :| id in s; [id] + Elements(s - {id})
  }

  /** Whatever may come first, some enumeration does find first. */
  lemma {:induction false} MayComeFirstIsFound(e: Err, r: Err) returns (order: Order)
    requires MayComeFirst(e, r)
    ensures ValidOrder(order) && As(e, IsRetryAfter, order) == Some(r)
    decreases e
  {
    match e
    case RetryAfter(_, _) =>
      order := (m: Entries) => Elements(m.Keys);
    case Plain(_) =>
      order := (m: Entries) => [];
    case LeaseLost =>
      order := (m: Entries) => [];
    case Joined(causes) =>
      var i :| 0 <= i < |causes| && MayComeFirst(causes[i], r) && NoRetryBefore(causes, i);
      order := MayComeFirstIsFound(causes[i], r);
      AsAnySkips(e, Children(e, order), order, i);
    case Batch(outcomes, others) =>
      if others.Some? && Has(others.value, IsRetryAfter) {
        order := MayComeFirstIsFound(others.value, r);
        AsAnySkips(e, Children(e, order), order, 0);
      } else {
        var id :| id in outcomes && outcomes[id].Some? && MayComeFirst(outcomes[id].value, r);
        var inner := MayComeFirstIsFound(outcomes[id].value, r);
        order := VisitFirst(outcomes, id, inner);
        FirstVisited(e, id, inner, order, r);
      }
    case Wrapped(_, inner) =>
      order := MayComeFirstIsFound(inner, r);
      AsAnySkips(e, Children(e, order), order, 0);
    case _ =>
      order := MayComeFirstIsFound(e.cause.value, r);
      AsAnySkips(e, Children(e, order), order, 0);
  }

  lemma FirstVisited(e: Err, id: Id, inner: Order, order: Order, r: Err)
    requires e.Batch? && id in e.outcomes && e.outcomes[id].Some?
    requires !(e.others.Some? && Has(e.others.value, IsRetryAfter))
    requires ValidOrder(inner) && As(e.outcomes[id].value, IsRetryAfter, inner) == Some(r)
    requires order == VisitFirst(e.outcomes, id, inner)
    ensures ValidOrder(order) && As(e, IsRetryAfter, order) == Some(r)
  {
    var m, c := e.outcomes, e.outcomes[id].value;
    if Occurs(m, c) { EntriesAreSmaller(m, c, id); }
    AsIgnoresOtherMaps(c, IsRetryAfter, m, inner, order);
    var cs := Children(e, order);
    assert order(m) == [id] + inner(m);
    assert Listed(m, order(m))[0] == c;
    var i := if e.others.Some? then 1 else 0;
    assert cs[i] == c;
    AsAnySkips(e, cs, order, i);
  }

  /**
   It can matter: one message whose outcome is itself a PerMessage, with two entries
   that ask for different delays, waits as long as the entry Go happens to visit first.
   */
  lemma MapOrderDecidesDelay(a: Id, b: Id, d: Duration, e: Duration) returns (outcome: Err, o1: Order, o2: Order)
    requires a != b && d != e
    ensures outcome == Batch(map[a := Some(RetryAfter(None, d)), b := Some(RetryAfter(None, e))], None)
    ensures ValidOrder(o1) && ValidOrder(o2)
    ensures RequestedDelay(outcome, o1) == Some(d) && RequestedDelay(outcome, o2) == Some(e)
  {
    var first, second := RetryAfter(None, d), RetryAfter(None, e);
    outcome := Batch(map[a := Some(first), b := Some(second)], None);
    assert outcome.outcomes[a].value == first && outcome.outcomes[b].value == second;
    assert MayComeFirst(outcome, first) && MayComeFirst(outcome, second);
    o1 := MayComeFirstIsFound(outcome, first);
    o2 := MayComeFirstIsFound(outcome, second);
  }

  /**
   The delay that a settled outcome requests is the same in every map order exactly
   when all RetryAfter markers that may come first ask for the same delay. Only a
   BatchError nested inside the outcome can make several come first.
   */
  lemma DelayIsOrderFree(e: Err)
    ensures (forall o1, o2 :: ValidOrder(o1) && ValidOrder(o2) ==> RequestedDelay(e, o1) == RequestedDelay(e, o2))
            <==>
            (forall r1, r2 :: MayComeFirst(e, r1) && MayComeFirst(e, r2) && r1.RetryAfter? && r2.RetryAfter? ==>
               r1.delay == r2.delay)
  {
    if forall o1, o2 :: ValidOrder(o1) && ValidOrder(o2) ==> RequestedDelay(e, o1) == RequestedDelay(e, o2) {
      forall r1, r2 | MayComeFirst(e, r1) && MayComeFirst(e, r2) && r1.RetryAfter? && r2.RetryAfter?
        ensures r1.delay == r2.delay
      {
        var o1 := MayComeFirstIsFound(e, r1);
        var o2 := MayComeFirstIsFound(e, r2);
        assert RequestedDelay(e, o1) == RequestedDelay(e, o2);
      }
    }
    if forall r1, r2 :: MayComeFirst(e, r1) && MayComeFirst(e, r2) && r1.RetryAfter? && r2.RetryAfter? ==>
         r1.delay == r2.delay {
      forall o1, o2 | ValidOrder(o1) && ValidOrder(o2)
        ensures RequestedDelay(e, o1) == RequestedDelay(e, o2)
      {
        AsFinds(e, IsRetryAfter, o1);
        AsFinds(e, IsRetryAfter, o2);
        if As(e, IsRetryAfter, o1).Some? {
          FoundMayComeFirst(e, o1);
          FoundMayComeFirst(e, o2);
        }
      }
    }
  }

  lemma {:induction false} MayComeFirstHas(e: Err, r: Err)
    requires MayComeFirst(e, r)
    ensures Has(e, IsRetryAfter)
    decreases e
  {
    match e
    case RetryAfter(_, _) =>
    case Wrapped(_, inner) => MayComeFirstHas(inner, r);
    case Joined(causes) =>
      var i :| 0 <= i < |causes| && MayComeFirst(causes[i], r) && NoRetryBefore(causes, i);
      MayComeFirstHas(causes[i], r);
    case Batch(outcomes, others) =>
      if !(others.Some? && Has(others.value, IsRetryAfter)) {
        var id :| id in outcomes && outcomes[id].Some? && MayComeFirst(outcomes[id].value, r);
        MayComeFirstHas(outcomes[id].value, r);
      }
    case Plain(_) =>
    case LeaseLost =>
    case _ => MayComeFirstHas(e.cause.value, r);
  }

  lemma {:induction false} OneFirstWithoutBatch(e: Err, r1: Err, r2: Err)
    requires !Has(e, IsBatch) && MayComeFirst(e, r1) && MayComeFirst(e, r2)
    ensures r1 == r2
    decreases e
  {
    match e
    case Plain(_) =>
    case LeaseLost =>
    case RetryAfter(_, _) =>
    case Wrapped(_, inner) => OneFirstWithoutBatch(inner, r1, r2);
    case Joined(causes) =>
      var i :| 0 <= i < |causes| && MayComeFirst(causes[i], r1) && NoRetryBefore(causes, i);
      var j :| 0 <= j < |causes| && MayComeFirst(causes[j], r2) && NoRetryBefore(causes, j);
      MayComeFirstHas(causes[i], r1);
      MayComeFirstHas(causes[j], r2);
      assert i == j;
      OneFirstWithoutBatch(causes[i], r1, r2);
    case Batch(_, _) =>
    case _ => OneFirstWithoutBatch(e.cause.value, r1, r2);
  }

  /** An outcome without a PerMessage inside requests one and the same delay in every map order. */
  lemma DelayIsOrderFreeWithoutBatch(e: Err, o1: Order, o2: Order)
    requires !Has(e, IsBatch) && ValidOrder(o1) && ValidOrder(o2)
    ensures RequestedDelay(e, o1) == RequestedDelay(e, o2)
  {
    forall r1, r2 | MayComeFirst(e, r1) && MayComeFirst(e, r2) ensures r1 == r2 {
      OneFirstWithoutBatch(e, r1, r2);
    }
    DelayIsOrderFree(e);
  }
}
