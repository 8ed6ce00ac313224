/**
 * The destination host: routes from input ids to destinations, built by
 * `add_route`, and the routing task `start` spawns, which sends every
 * final recognition result to each route of its input, in route order.
 * The input task is modelled as a sequential processor over the results it
 * receives; the I/O outcome of each send is an input.
 */
module DestHost {
  import opened Base
  import opened CoreTypes
  import opened Toml
  import opened Channels
  import opened DestRegistry
  import FileDest

  datatype Route = Route(destination: Dest, prefix: string)

  /** One `send_text` call made by the routing task. */
  datatype Delivery = Delivery(destination: Dest, text: string, metadata: TextMetadata)

  /** The routes of one input; an input nobody routed has none. */
  function RoutesOf(routes: map<string, seq<Route>>, id: string): seq<Route>
  {
    if id in routes then routes[id] else []
  }

  /** The sends one received result causes. */
  function ResultDeliveries(routes: map<string, seq<Route>>, r: RecognitionResult): seq<Delivery>
  {
    if !r.isFinal then []
    else
      var rs := RoutesOf(routes, r.inputId);
      seq(|rs|, i requires 0 <= i < |rs| => Delivery(rs[i].destination, r.text, TextMetadata(r.inputId, rs[i].prefix)))
  }

  /** The sends the routing task makes for the results received so far, in order. */
  function Deliveries(routes: map<string, seq<Route>>, results: seq<RecognitionResult>): seq<Delivery>
    decreases |results|
  {
    if results == [] then []
    else Deliveries(routes, results[..|results| - 1]) + ResultDeliveries(routes, results[|results| - 1])
  }

  /** One more received result appends its own sends. */
  lemma DeliveriesSnoc(routes: map<string, seq<Route>>, results: seq<RecognitionResult>, r: RecognitionResult)
    ensures Deliveries(routes, results + [r]) == Deliveries(routes, results) + ResultDeliveries(routes, r)
  {
    assert (results + [r])[..|results|] == results;
  }

  /** Results are handled in arrival order: later results' sends come after earlier ones'. */
  lemma {:induction false} DeliveriesAppend(routes: map<string, seq<Route>>, a: seq<RecognitionResult>, b: seq<RecognitionResult>)
    ensures Deliveries(routes, a + b) == Deliveries(routes, a) + Deliveries(routes, b)
    decreases |b|
  {
    if b == [] {
      assert a + b == a;
    } else {
      var b' := b[..|b| - 1];
      assert (a + b)[..|a + b| - 1] == a + b';
      assert (a + b)[|a + b| - 1] == b[|b| - 1];
      DeliveriesAppend(routes, a, b');
    }
  }

  /**
   * A final result for an input with routes fans out to every route of
   * that input, in route order, with the input id and the route's prefix.
   */
  lemma FinalResultFansOut(routes: map<string, seq<Route>>, r: RecognitionResult)
    requires r.isFinal
    ensures |Deliveries(routes, [r])| == |RoutesOf(routes, r.inputId)|
    ensures forall i :: 0 <= i < |RoutesOf(routes, r.inputId)| ==>
      var route := RoutesOf(routes, r.inputId)[i];
      Deliveries(routes, [r])[i] == Delivery(route.destination, r.text, TextMetadata(r.inputId, route.prefix))
  {
    assert [r][..0] == [];
  }

  /** A non-final result causes no send, wherever it arrives. */
  lemma NonFinalIgnored(routes: map<string, seq<Route>>, a: seq<RecognitionResult>, r: RecognitionResult, b: seq<RecognitionResult>)
    requires !r.isFinal
    ensures Deliveries(routes, a + [r] + b) == Deliveries(routes, a + b)
  {
    DeliveriesAppend(routes, a + [r], b);
    DeliveriesAppend(routes, a, b);
    assert (a + [r])[..|a + [r]| - 1] == a;
  }

  /**
   * Every send goes to a route of the result's own input, and carries the
   * text of a final result received for that input.
   */
  lemma {:induction false} DeliveriesUseOwnRoutes(routes: map<string, seq<Route>>, results: seq<RecognitionResult>)
    ensures forall d :: d in Deliveries(routes, results) ==>
      Route(d.destination, d.metadata.prefix) in RoutesOf(routes, d.metadata.inputId) &&
      exists r :: r in results && r.isFinal && r.inputId == d.metadata.inputId && r.text == d.text
    decreases |results|
  {
    if results != [] {
      var init := results[..|results| - 1];
      var last := results[|results| - 1];
      DeliveriesUseOwnRoutes(routes, init);
      forall d | d in Deliveries(routes, results)
        ensures Route(d.destination, d.metadata.prefix) in RoutesOf(routes, d.metadata.inputId)
        ensures exists r :: r in results && r.isFinal && r.inputId == d.metadata.inputId && r.text == d.text
      {
        if d in Deliveries(routes, init) {
          var r :| r in init && r.isFinal && r.inputId == d.metadata.inputId && r.text == d.text;
          assert r in results;
        } else {
          var rd := ResultDeliveries(routes, last);
          assert d in rd;
          var i :| 0 <= i < |rd| && rd[i] == d;
          assert RoutesOf(routes, last.inputId)[i] == Route(d.destination, d.metadata.prefix);
        }
      }
    }
  }

  /** Results of inputs without routes cause no sends at all. */
  lemma {:induction false} UnroutedIgnored(routes: map<string, seq<Route>>, results: seq<RecognitionResult>)
    requires forall r :: r in results ==> RoutesOf(routes, r.inputId) == []
    ensures Deliveries(routes, results) == []
    decreases |results|
  {
    if results != [] {
      var init := results[..|results| - 1];
      assert forall r :: r in init ==> r in results;
      assert results[|results| - 1] in results;
      UnroutedIgnored(routes, init);
    }
  }

  /** The objects behind every routed destination. */
  ghost function RouteObjects(routes: map<string, seq<Route>>): set<object>
  {
    set id, i | id in routes && 0 <= i < |routes[id]| :: Obj(routes[id][i].destination)
  }

  /** The routed file destinations. */
  ghost function Files(routes: map<string, seq<Route>>): set<FileDest.FileDestination>
  {
    set id, i | id in routes && 0 <= i < |routes[id]| && routes[id][i].destination.File? :: routes[id][i].destination.file
  }

  /** The destinations of one result's sends are routed ones. */
  lemma ResultDeliveriesRouted(routes: map<string, seq<Route>>, r: RecognitionResult, k: nat)
    requires k < |ResultDeliveries(routes, r)|
    ensures Obj(ResultDeliveries(routes, r)[k].destination) in RouteObjects(routes)
    ensures ResultDeliveries(routes, r)[k].destination.File? ==>
      ResultDeliveries(routes, r)[k].destination.file in Files(routes)
  {
    assert r.inputId in routes && routes[r.inputId][k].destination == ResultDeliveries(routes, r)[k].destination;
  }

  lemma ResultDeliveriesAllRouted(routes: map<string, seq<Route>>, r: RecognitionResult)
    ensures SentRouted(routes, ResultDeliveries(routes, r))
  {
    forall k | 0 <= k < |ResultDeliveries(routes, r)|
      ensures Obj(ResultDeliveries(routes, r)[k].destination) in RouteObjects(routes)
      ensures ResultDeliveries(routes, r)[k].destination.File? ==> ResultDeliveries(routes, r)[k].destination.file in Files(routes)
    {
      ResultDeliveriesRouted(routes, r, k);
    }
  }

  /** The file system's answer for the `k`-th send; sends beyond the list succeed. */
  function IoAt(ioErrors: seq<Option<string>>, k: nat): Option<string>
  {
    if k < |ioErrors| then ioErrors[k] else None
  }

  /** The state of every routed file destination. */
  ghost function States(routes: map<string, seq<Route>>): (m: map<FileDest.FileDestination, FileDest.FileState>)
    reads Files(routes)
    ensures m.Keys == Files(routes)
  {
    map f | f in Files(routes) :: f.State()
  }

  /** The output path of every routed file destination. */
  ghost function Paths(routes: map<string, seq<Route>>): (m: map<FileDest.FileDestination, Option<string>>)
    reads Files(routes)
    ensures m.Keys == Files(routes)
  {
    map f | f in Files(routes) :: f.outputPath
  }

  /**
   * What one send to `d` returns given the file destinations' output paths
   * and the file system's answer: the Discord stub always succeeds.
   */
  function Answer(d: Dest, paths: map<FileDest.FileDestination, Option<string>>, io: Option<string>): Result<Unit, DestinationError>
    requires d.File? ==> d.file in paths
  {
    match d
    case File(f) => FileDest.SendOutcome(paths[f], io)
    case Discord(_) => Ok(Unit)
  }

  /**
   * `outcomes` are the answers to the sends `sent`, the first of them the
   * `k0`-th send, given the file destinations' output paths `paths`.
   */
  predicate AnswersMatch(sent: seq<Delivery>, outcomes: seq<Result<Unit, DestinationError>>,
                         paths: map<FileDest.FileDestination, Option<string>>, ioErrors: seq<Option<string>>, k0: nat)
  {
    |outcomes| == |sent| &&
    forall k :: 0 <= k < |sent| ==>
      (sent[k].destination.File? ==> sent[k].destination.file in paths) &&
      outcomes[k] == Answer(sent[k].destination, paths, IoAt(ioErrors, k0 + k))
  }

  /** Answers to consecutive runs of sends compose. */
  lemma AnswersMatchAppend(a: seq<Delivery>, oa: seq<Result<Unit, DestinationError>>,
                           b: seq<Delivery>, ob: seq<Result<Unit, DestinationError>>,
                           paths: map<FileDest.FileDestination, Option<string>>, ioErrors: seq<Option<string>>, k0: nat)
    requires AnswersMatch(a, oa, paths, ioErrors, k0) && AnswersMatch(b, ob, paths, ioErrors, k0 + |a|)
    ensures AnswersMatch(a + b, oa + ob, paths, ioErrors, k0)
  {
    forall k | |a| <= k < |a + b|
      ensures (oa + ob)[k] == ob[k - |a|] && (a + b)[k] == b[k - |a|]
    {
    }
  }

  /** Answers extend by one send at a time. */
  lemma AnswersMatchSnoc(sent: seq<Delivery>, outcomes: seq<Result<Unit, DestinationError>>, d: Delivery,
                         res: Result<Unit, DestinationError>, paths: map<FileDest.FileDestination, Option<string>>,
                         ioErrors: seq<Option<string>>, k0: nat)
    requires AnswersMatch(sent, outcomes, paths, ioErrors, k0)
    requires (d.destination.File? ==> d.destination.file in paths) && res == Answer(d.destination, paths, IoAt(ioErrors, k0 + |sent|))
    ensures AnswersMatch(sent + [d], outcomes + [res], paths, ioErrors, k0)
  {
    assert [d][0] == d && [res][0] == res;
    AnswersMatchAppend(sent, outcomes, [d], [res], paths, ioErrors, k0);
  }

  /**
   * The state of file destination `f` after the sends `sent` with results
   * `outcomes`, from state `s`: each successful send to `f`, in order,
   * appends its line to `f`'s file and counts once; other sends leave `f`
   * alone.
   */
  function FileAfter(s: FileDest.FileState, f: FileDest.FileDestination, sent: seq<Delivery>,
                     outcomes: seq<Result<Unit, DestinationError>>): (r: FileDest.FileState)
    requires |outcomes| == |sent|
    ensures r.outputPath == s.outputPath
    decreases |sent|
  {
    if sent == [] then s
    else
      var n := |sent| - 1;
      Step(FileAfter(s, f, sent[..n], outcomes[..n]), f, sent[n], outcomes[n])
  }

  /** One send with its outcome, seen from file destination `f`. */
  function Step(p: FileDest.FileState, f: FileDest.FileDestination, d: Delivery, o: Result<Unit, DestinationError>): (r: FileDest.FileState)
    ensures r.outputPath == p.outputPath
  {
    if d.destination == File(f) && o.Ok? && p.outputPath.Some? then
      p.(sendCount := WrappingIncrement(p.sendCount),
         appended := FileDest.AppendLine(p.appended, p.outputPath.value, FileDest.FormatLine(d.metadata.prefix, d.text)))
    else p
  }

  /** Consecutive runs of sends compose. */
  lemma {:induction false} FileAfterAppend(s: FileDest.FileState, f: FileDest.FileDestination,
                                           a: seq<Delivery>, oa: seq<Result<Unit, DestinationError>>,
                                           b: seq<Delivery>, ob: seq<Result<Unit, DestinationError>>)
    requires |oa| == |a| && |ob| == |b|
    ensures FileAfter(FileAfter(s, f, a, oa), f, b, ob) == FileAfter(s, f, a + b, oa + ob)
    decreases |b|
  {
    if b == [] {
      assert a + b == a && oa + ob == oa;
    } else {
      var n := |b| - 1;
      FileAfterAppend(s, f, a, oa, b[..n], ob[..n]);
      assert (a + b)[..|a| + n] == a + b[..n];
      assert (oa + ob)[..|a| + n] == oa + ob[..n];
      assert (a + b)[|a| + n] == b[n] && (oa + ob)[|a| + n] == ob[n];
    }
  }

  /** Every routed file destination is in state `FileAfter(s0[f], …)` of the sends so far. */
  ghost predicate FilesFollow(routes: map<string, seq<Route>>, s0: map<FileDest.FileDestination, FileDest.FileState>,
                              sent: seq<Delivery>, outcomes: seq<Result<Unit, DestinationError>>)
    requires |outcomes| == |sent|
    reads Files(routes)
  {
    forall f :: f in Files(routes) ==> f in s0 && f.State() == FileAfter(s0[f], f, sent, outcomes)
  }

  /** Every send of `sent` to a file destination goes to a routed one. */
  ghost predicate SentRouted(routes: map<string, seq<Route>>, sent: seq<Delivery>)
  {
    forall k :: 0 <= k < |sent| ==>
      Obj(sent[k].destination) in RouteObjects(routes) &&
      (sent[k].destination.File? ==> sent[k].destination.file in Files(routes))
  }

  /**
   * The inner loop: sends one result to the routes of its input; errors
   * are logged and skipped. Each outcome is what its destination answers
   * (file paths do not change while routing).
   */
  method DeliverResult(routes: map<string, seq<Route>>, r: RecognitionResult, ioErrors: seq<Option<string>>, k0: nat)
    returns (sent: seq<Delivery>, outcomes: seq<Result<Unit, DestinationError>>)
    modifies RouteObjects(routes)
    ensures sent == ResultDeliveries(routes, r) && |outcomes| == |sent| && SentRouted(routes, sent)
    ensures AnswersMatch(sent, outcomes, old(Paths(routes)), ioErrors, k0) && Paths(routes) == old(Paths(routes))
    ensures forall f :: f in Files(routes) ==> f.State() == FileAfter(old(f.State()), f, sent, outcomes)
  {
    sent, outcomes := [], [];
    if !r.isFinal || r.inputId !in routes {
      return;
    }
    var rs := routes[r.inputId];
    ghost var p0, s0 := Paths(routes), States(routes);
    ghost var ds := ResultDeliveries(routes, r);
    var i := 0;
    while i < |rs|
      invariant 0 <= i <= |rs|
      invariant sent == ds[..i] && |outcomes| == i
      invariant AnswersMatch(sent, outcomes, p0, ioErrors, k0) && Paths(routes) == p0
      invariant FilesFollow(routes, s0, sent, outcomes)
    {
      sent, outcomes := SendRoute(routes, r, i, ioErrors, k0, sent, outcomes, p0, s0);
      i := i + 1;
    }
    assert ds[..i] == ds;
    ResultDeliveriesAllRouted(routes, r);
  }

  /**
   * The `i`-th route of a final result's input: its send is appended to
   * those so far, with the answer of its destination.
   */
  method SendRoute(routes: map<string, seq<Route>>, r: RecognitionResult, i: nat, ioErrors: seq<Option<string>>, k0: nat,
                   sent: seq<Delivery>, outcomes: seq<Result<Unit, DestinationError>>,
                   ghost p0: map<FileDest.FileDestination, Option<string>>,
                   ghost s0: map<FileDest.FileDestination, FileDest.FileState>)
    returns (sent': seq<Delivery>, outcomes': seq<Result<Unit, DestinationError>>)
    requires r.isFinal && r.inputId in routes && i < |routes[r.inputId]|
    requires sent == ResultDeliveries(routes, r)[..i] && |outcomes| == i
    requires AnswersMatch(sent, outcomes, p0, ioErrors, k0) && Paths(routes) == p0
    requires FilesFollow(routes, s0, sent, outcomes)
    modifies RouteObjects(routes)
    ensures sent' == ResultDeliveries(routes, r)[..i + 1] && |outcomes'| == i + 1
    ensures AnswersMatch(sent', outcomes', p0, ioErrors, k0) && Paths(routes) == p0
    ensures FilesFollow(routes, s0, sent', outcomes')
  {
    ghost var ds := ResultDeliveries(routes, r);
    var route := routes[r.inputId][i];
    var d := Delivery(route.destination, r.text, TextMetadata(r.inputId, route.prefix));
    assert d == ds[i];
    ResultDeliveriesRouted(routes, r, i);
    var res := SendOne(routes, d, IoAt(ioErrors, k0 + i), p0, s0, sent, outcomes);
    AnswersMatchSnoc(sent, outcomes, d, res, p0, ioErrors, k0);
    assert ds[..i + 1] == ds[..i] + [d];
    sent', outcomes' := sent + [d], outcomes + [res];
  }

  /**
   * One `send_text` inside the routing loop: it answers from the output
   * path of its destination, and extends the record of every routed file
   * destination's state, from `s0` over the sends so far, by this send.
   */
  method SendOne(routes: map<string, seq<Route>>, d: Delivery, io: Option<string>,
                 ghost paths: map<FileDest.FileDestination, Option<string>>,
                 ghost s0: map<FileDest.FileDestination, FileDest.FileState>,
                 ghost sent: seq<Delivery>, ghost outcomes: seq<Result<Unit, DestinationError>>)
    returns (res: Result<Unit, DestinationError>)
    requires Obj(d.destination) in RouteObjects(routes)
    requires d.destination.File? ==> d.destination.file in Files(routes)
    requires Paths(routes) == paths && |outcomes| == |sent|
    requires FilesFollow(routes, s0, sent, outcomes)
    modifies RouteObjects(routes)
    ensures (d.destination.File? ==> d.destination.file in paths) && res == Answer(d.destination, paths, io)
    ensures Paths(routes) == paths
    ensures FilesFollow(routes, s0, sent + [d], outcomes + [res])
  {
    res := SendText(d.destination, d.text, d.metadata, io);
    forall f | f in Files(routes)
      ensures f.State() == FileAfter(s0[f], f, sent + [d], outcomes + [res])
    {
      FileAfterAppend(s0[f], f, sent, outcomes, [d], [res]);
      assert [d][..0] == [] && [res][..0] == [];
      if d.destination != File(f) {
        assert f != Obj(d.destination);
      }
    }
    assert forall f :: f in Files(routes) ==> f.outputPath == old(f.outputPath);
  }

  /**
   * The `j`-th received result inside the routing task: routed as
   * `DeliverResult` does, its sends and their answers extend those so far.
   */
  method RouteNext(routes: map<string, seq<Route>>, results: seq<RecognitionResult>, j: nat, ioErrors: seq<Option<string>>,
                   sent: seq<Delivery>, outcomes: seq<Result<Unit, DestinationError>>,
                   ghost p0: map<FileDest.FileDestination, Option<string>>,
                   ghost s0: map<FileDest.FileDestination, FileDest.FileState>)
    returns (sent': seq<Delivery>, outcomes': seq<Result<Unit, DestinationError>>)
    requires j < |results|
    requires sent == Deliveries(routes, results[..j]) && |outcomes| == |sent|
    requires AnswersMatch(sent, outcomes, p0, ioErrors, 0) && Paths(routes) == p0
    requires FilesFollow(routes, s0, sent, outcomes)
    modifies RouteObjects(routes)
    ensures sent' == Deliveries(routes, results[..j + 1]) && |outcomes'| == |sent'|
    ensures AnswersMatch(sent', outcomes', p0, ioErrors, 0) && Paths(routes) == p0
    ensures FilesFollow(routes, s0, sent', outcomes')
  {
    var s, o := DeliverResult(routes, results[j], ioErrors, |sent|);
    forall f | f in Files(routes)
      ensures f in s0 && f.State() == FileAfter(s0[f], f, sent + s, outcomes + o)
    {
      FileAfterAppend(s0[f], f, sent, outcomes, s, o);
    }
    AnswersMatchAppend(sent, outcomes, s, o, p0, ioErrors, 0);
    DeliveriesStep(routes, results, j, sent, s);
    sent', outcomes' := sent + s, outcomes + o;
  }

  /** The sends of one more result extend those so far. */
  lemma DeliveriesStep(routes: map<string, seq<Route>>, results: seq<RecognitionResult>, j: nat,
                       sent: seq<Delivery>, s: seq<Delivery>)
    requires j < |results|
    requires sent == Deliveries(routes, results[..j]) && s == ResultDeliveries(routes, results[j])
    ensures sent + s == Deliveries(routes, results[..j + 1])
  {
    assert results[..j + 1][..j] == results[..j];
  }

  /** Two runs of routed sends make a run of routed sends. */
  lemma SentRoutedAppend(routes: map<string, seq<Route>>, a: seq<Delivery>, b: seq<Delivery>)
    requires SentRouted(routes, a) && SentRouted(routes, b)
    ensures SentRouted(routes, a + b)
  {
    forall k | |a| <= k < |a + b|
      ensures (a + b)[k] == b[k - |a|]
    {
    }
  }

  /** Every send of the routing task goes to a routed destination. */
  lemma {:induction false} DeliveriesRouted(routes: map<string, seq<Route>>, results: seq<RecognitionResult>)
    ensures SentRouted(routes, Deliveries(routes, results))
    decreases |results|
  {
    if results != [] {
      var n := |results| - 1;
      DeliveriesRouted(routes, results[..n]);
      ResultDeliveriesAllRouted(routes, results[n]);
      SentRoutedAppend(routes, Deliveries(routes, results[..n]), ResultDeliveries(routes, results[n]));
    }
  }

  /**
   * The routing task over the results it receives, in arrival order; the
   * `k`-th send meets the file system's answer `IoAt(ioErrors, k)`. A failed
   * send is logged and routing goes on.
   */
  method RoutingTask(routes: map<string, seq<Route>>, results: seq<RecognitionResult>, ioErrors: seq<Option<string>>)
    returns (sent: seq<Delivery>, outcomes: seq<Result<Unit, DestinationError>>)
    modifies RouteObjects(routes)
    ensures sent == Deliveries(routes, results) && |outcomes| == |sent| && SentRouted(routes, sent)
    ensures AnswersMatch(sent, outcomes, old(Paths(routes)), ioErrors, 0) && Paths(routes) == old(Paths(routes))
    ensures forall f :: f in Files(routes) ==> f.State() == FileAfter(old(f.State()), f, sent, outcomes)
  {
    sent, outcomes := [], [];
    ghost var p0, s0 := Paths(routes), States(routes);
    var j := 0;
    while j < |results|
      invariant 0 <= j <= |results|
      invariant sent == Deliveries(routes, results[..j]) && |outcomes| == |sent|
      invariant AnswersMatch(sent, outcomes, p0, ioErrors, 0) && Paths(routes) == p0
      invariant FilesFollow(routes, s0, sent, outcomes)
    {
      sent, outcomes := RouteNext(routes, results, j, ioErrors, sent, outcomes, p0, s0);
      j := j + 1;
    }
    assert results[..j] == results;
    DeliveriesRouted(routes, results);
  }

  /** The line each of `sent` writes at `f`, in order. */
  function Lines(f: FileDest.FileDestination, sent: seq<Delivery>, outcomes: seq<Result<Unit, DestinationError>>): (ls: seq<string>)
    requires |outcomes| == |sent|
    ensures |ls| == |sent|
  {
    seq(|sent|, k requires 0 <= k < |sent| => LineOf(f, sent[k], outcomes[k]))
  }

  /** The text the successful sends to `f` among `sent` write, in order. */
  function LinesFor(f: FileDest.FileDestination, sent: seq<Delivery>, outcomes: seq<Result<Unit, DestinationError>>): string
    requires |outcomes| == |sent|
  {
    Concat(Lines(f, sent, outcomes))
  }

  /** The line one send writes at `f`: its formatted text when it is a successful send there. */
  function LineOf(f: FileDest.FileDestination, d: Delivery, o: Result<Unit, DestinationError>): string
  {
    if d.destination == File(f) && o.Ok? then FileDest.FormatLine(d.metadata.prefix, d.text) else ""
  }

  /** Whether the `k`-th send is a successful send to `f`. */
  predicate Writes(f: FileDest.FileDestination, sent: seq<Delivery>, outcomes: seq<Result<Unit, DestinationError>>, k: nat)
    requires |outcomes| == |sent| && k < |sent|
  {
    sent[k].destination == File(f) && outcomes[k].Ok?
  }

  /** The text of a non-empty run of sends is that of all but the last, then the last one's line. */
  lemma LinesForLast(f: FileDest.FileDestination, sent: seq<Delivery>, outcomes: seq<Result<Unit, DestinationError>>)
    requires |outcomes| == |sent| && sent != []
    ensures LinesFor(f, sent, outcomes) ==
      LinesFor(f, sent[..|sent| - 1], outcomes[..|sent| - 1]) + LineOf(f, sent[|sent| - 1], outcomes[|sent| - 1])
  {
    var n := |sent| - 1;
    assert Lines(f, sent, outcomes)[..n] == Lines(f, sent[..n], outcomes[..n]);
  }

  /** The text of consecutive runs of sends is concatenated. */
  lemma LinesForAppend(f: FileDest.FileDestination, a: seq<Delivery>, oa: seq<Result<Unit, DestinationError>>,
                       b: seq<Delivery>, ob: seq<Result<Unit, DestinationError>>)
    requires |oa| == |a| && |ob| == |b|
    ensures LinesFor(f, a + b, oa + ob) == LinesFor(f, a, oa) + LinesFor(f, b, ob)
  {
    assert Lines(f, a + b, oa + ob) == Lines(f, a, oa) + Lines(f, b, ob);
    ConcatAppend(Lines(f, a, oa), Lines(f, b, ob));
  }

  /** Sends none of which succeed at `f` write nothing there. */
  lemma LinesForNone(f: FileDest.FileDestination, sent: seq<Delivery>, outcomes: seq<Result<Unit, DestinationError>>)
    requires |outcomes| == |sent|
    requires forall k :: 0 <= k < |sent| ==> !Writes(f, sent, outcomes, k)
    ensures LinesFor(f, sent, outcomes) == ""
  {
    forall k | 0 <= k < |sent|
      ensures Lines(f, sent, outcomes)[k] == ""
    {
      assert !Writes(f, sent, outcomes, k);
    }
    ConcatNone(Lines(f, sent, outcomes));
  }

  /** When only the `k`-th send succeeds at `f`, its line is all that `f` writes. */
  lemma LinesForOnly(f: FileDest.FileDestination, sent: seq<Delivery>, outcomes: seq<Result<Unit, DestinationError>>,
                     k: nat)
    requires |outcomes| == |sent| && k < |sent| && Writes(f, sent, outcomes, k)
    requires forall j :: 0 <= j < |sent| && j != k ==> !Writes(f, sent, outcomes, j)
    ensures LinesFor(f, sent, outcomes) == FileDest.FormatLine(sent[k].metadata.prefix, sent[k].text)
  {
    forall j | 0 <= j < |sent| && j != k
      ensures Lines(f, sent, outcomes)[j] == ""
    {
      assert !Writes(f, sent, outcomes, j);
    }
    ConcatOnly(Lines(f, sent, outcomes), k);
  }

  /**
   * A configured file destination's file receives exactly the lines of its
   * successful sends, in order; without any, no file is created.
   */
  lemma {:induction false} FileAfterWrites(s: FileDest.FileState, f: FileDest.FileDestination, sent: seq<Delivery>,
                                           outcomes: seq<Result<Unit, DestinationError>>)
    requires |outcomes| == |sent| && s.outputPath.Some?
    ensures LinesFor(f, sent, outcomes) == "" ==> FileAfter(s, f, sent, outcomes).appended == s.appended
    ensures LinesFor(f, sent, outcomes) != "" ==>
      FileAfter(s, f, sent, outcomes).appended == FileDest.AppendLine(s.appended, s.outputPath.value, LinesFor(f, sent, outcomes))
    decreases |sent|
  {
    if sent != [] {
      var n := |sent| - 1;
      var path := s.outputPath.value;
      FileAfterWrites(s, f, sent[..n], outcomes[..n]);
      var before := LinesFor(f, sent[..n], outcomes[..n]);
      LinesForLast(f, sent, outcomes);
      if sent[n].destination == File(f) && outcomes[n].Ok? {
        var line := FileDest.FormatLine(sent[n].metadata.prefix, sent[n].text);
        if before == "" {
          assert before + line == line;
        } else {
          FileDest.AppendLineTwice(s.appended, path, before, line);
        }
      } else {
        assert LinesFor(f, sent, outcomes) == before + "" == before;
      }
    }
  }

  /** A file destination configured with `path` that has written nothing yet. */
  function Configured(path: string): FileDest.FileState
  {
    FileDest.FileState(Some(path), 0, map[])
  }

  lemma AppendFirst(path: string, line: string)
    ensures FileDest.AppendLine(map[], path, line) == map[path := line]
  {
    assert "" + line == line;
  }

  /** A routed final result is written to the file as one line, after the route's prefix. */
  lemma ExamplePrefixedLine(f: FileDest.FileDestination, path: string, id: string, prefix: string, text: string,
                            routes: map<string, seq<Route>>, results: seq<RecognitionResult>,
                            outcomes: seq<Result<Unit, DestinationError>>)
    requires routes == map[id := [Route(File(f), prefix)]]
    requires results == [RecognitionResult(text, id, 0.0, true)]
    requires AnswersMatch(Deliveries(routes, results), outcomes, map[f := Some(path)], [], 0)
    ensures FileAfter(Configured(path), f, Deliveries(routes, results), outcomes).appended == map[path := prefix + text + "\n"]
  {
    var sent := Deliveries(routes, results);
    FinalResultFansOut(routes, results[0]);
    assert sent[0].destination == File(f) && outcomes[0] == Ok(Unit);
    LinesForOnly(f, sent, outcomes, 0);
    FileAfterWrites(Configured(path), f, sent, outcomes);
    AppendFirst(path, prefix + text + "\n");
  }

  /** A result reaches only the file routed from its own input; the other file is never created. */
  lemma ExampleOwnInputOnly(f1: FileDest.FileDestination, f2: FileDest.FileDestination, p1: string, p2: string,
                            id1: string, id2: string, text: string,
                            routes: map<string, seq<Route>>, results: seq<RecognitionResult>,
                            outcomes: seq<Result<Unit, DestinationError>>)
    requires f1 != f2 && id1 != id2
    requires routes == map[id1 := [Route(File(f1), "")], id2 := [Route(File(f2), "")]]
    requires results == [RecognitionResult(text, id1, 0.0, true)]
    requires AnswersMatch(Deliveries(routes, results), outcomes, map[f1 := Some(p1), f2 := Some(p2)], [], 0)
    ensures FileAfter(Configured(p1), f1, Deliveries(routes, results), outcomes).appended == map[p1 := text + "\n"]
    ensures FileAfter(Configured(p2), f2, Deliveries(routes, results), outcomes).appended == map[]
  {
    var sent := Deliveries(routes, results);
    FinalResultFansOut(routes, results[0]);
    assert sent[0].destination == File(f1) && outcomes[0] == Ok(Unit);
    LinesForOnly(f1, sent, outcomes, 0);
    LinesForNone(f2, sent, outcomes);
    assert "" + text + "\n" == text + "\n";
    FileAfterWrites(Configured(p1), f1, sent, outcomes);
    FileAfterWrites(Configured(p2), f2, sent, outcomes);
    AppendFirst(p1, text + "\n");
  }

  /** One result fans out to two files, each line with its own route's prefix. */
  lemma ExampleFanOut(fa: FileDest.FileDestination, fb: FileDest.FileDestination, pa: string, pb: string,
                      id: string, prefixA: string, prefixB: string, text: string,
                      routes: map<string, seq<Route>>, results: seq<RecognitionResult>,
                      outcomes: seq<Result<Unit, DestinationError>>)
    requires fa != fb
    requires routes == map[id := [Route(File(fa), prefixA), Route(File(fb), prefixB)]]
    requires results == [RecognitionResult(text, id, 0.0, true)]
    requires AnswersMatch(Deliveries(routes, results), outcomes, map[fa := Some(pa), fb := Some(pb)], [], 0)
    ensures FileAfter(Configured(pa), fa, Deliveries(routes, results), outcomes).appended == map[pa := prefixA + text + "\n"]
    ensures FileAfter(Configured(pb), fb, Deliveries(routes, results), outcomes).appended == map[pb := prefixB + text + "\n"]
  {
    var sent := Deliveries(routes, results);
    FinalResultFansOut(routes, results[0]);
    assert sent[0].destination == File(fa) && sent[1].destination == File(fb);
    assert outcomes[0] == Ok(Unit) && outcomes[1] == Ok(Unit);
    LinesForOnly(fa, sent, outcomes, 0);
    LinesForOnly(fb, sent, outcomes, 1);
    FileAfterWrites(Configured(pa), fa, sent, outcomes);
    FileAfterWrites(Configured(pb), fb, sent, outcomes);
    AppendFirst(pa, prefixA + text + "\n");
    AppendFirst(pb, prefixB + text + "\n");
  }

  /**
   * Results are written in arrival order: the lines of a later result come
   * after every line of the results before it.
   */
  lemma ExampleArrivalOrder(f: FileDest.FileDestination, routes: map<string, seq<Route>>, results: seq<RecognitionResult>,
                            r: RecognitionResult, before: seq<Result<Unit, DestinationError>>,
                            after: seq<Result<Unit, DestinationError>>)
    requires |before| == |Deliveries(routes, results)| && |after| == |ResultDeliveries(routes, r)|
    ensures |before + after| == |Deliveries(routes, results + [r])|
    ensures LinesFor(f, Deliveries(routes, results + [r]), before + after) ==
      LinesFor(f, Deliveries(routes, results), before) + LinesFor(f, ResultDeliveries(routes, r), after)
  {
    DeliveriesSnoc(routes, results, r);
    LinesForAppend(f, Deliveries(routes, results), before, ResultDeliveries(routes, r), after);
  }

  /** A partial result writes nothing; the final one after it is written. */
  lemma ExampleFinalOnly(f: FileDest.FileDestination, path: string, id: string, partial: string, text: string,
                         routes: map<string, seq<Route>>, results: seq<RecognitionResult>,
                         outcomes: seq<Result<Unit, DestinationError>>)
    requires routes == map[id := [Route(File(f), "")]]
    requires results == [RecognitionResult(partial, id, 0.0, false), RecognitionResult(text, id, 0.0, true)]
    requires AnswersMatch(Deliveries(routes, results), outcomes, map[f := Some(path)], [], 0)
    ensures FileAfter(Configured(path), f, Deliveries(routes, results), outcomes).appended == map[path := text + "\n"]
  {
    var sent := Deliveries(routes, results);
    NonFinalIgnored(routes, [], results[0], [results[1]]);
    assert [] + [results[0]] + [results[1]] == results && [] + [results[1]] == [results[1]];
    FinalResultFansOut(routes, results[1]);
    assert sent[0].destination == File(f) && outcomes[0] == Ok(Unit);
    LinesForOnly(f, sent, outcomes, 0);
    assert "" + text + "\n" == text + "\n";
    FileAfterWrites(Configured(path), f, sent, outcomes);
    AppendFirst(path, text + "\n");
  }

  /** A result of an input without routes leaves the routed file uncreated. */
  lemma ExampleUnrouted(f: FileDest.FileDestination, path: string, id: string, other: string, text: string,
                        routes: map<string, seq<Route>>, results: seq<RecognitionResult>,
                        outcomes: seq<Result<Unit, DestinationError>>)
    requires id != other
    requires routes == map[id := [Route(File(f), "")]]
    requires results == [RecognitionResult(text, other, 0.0, true)]
    requires AnswersMatch(Deliveries(routes, results), outcomes, map[f := Some(path)], [], 0)
    ensures FileAfter(Configured(path), f, Deliveries(routes, results), outcomes).appended == map[]
  {
    UnroutedIgnored(routes, results);
    FileAfterWrites(Configured(path), f, Deliveries(routes, results), outcomes);
  }

  class DestinationHost {
    const registry: DestinationRegistry
    var routes: map<string, seq<Route>>
    var resultRx: Option<Channel<RecognitionResult>>
    /** Whether the routing task was spawned (`task_handle` is set). */
    var taskStarted: bool

    /** `DestinationHost::new`: the built-in registry, no routes, holding the receiver. */
    constructor (resultRx: Channel<RecognitionResult>, discordFeature: bool)
      ensures fresh(registry) && registry.factories == BuiltIn(discordFeature)
      ensures routes == map[] && this.resultRx == Some(resultRx) && !taskStarted
    {
      registry := new DestinationRegistry(discordFeature);
      routes := map[];
      this.resultRx := Some(resultRx);
      taskStarted := false;
    }

    /**
     * `add_route`: creates the plugin and initializes it with `config`;
     * only then is the route appended to the routes of `inputId`.
     */
    method AddRoute(inputId: string, pluginName: string, prefix: string, config: TomlValue)
      returns (r: Result<Unit, DestinationError>)
      modifies this
      ensures resultRx == old(resultRx) && taskStarted == old(taskStarted)
      ensures pluginName !in registry.factories ==> r == Err(NotFound(pluginName)) && routes == old(routes)
      ensures pluginName in registry.factories && !InitAccepts(registry.factories[pluginName], config) ==>
        r.Err? && r.error.InitializationFailed? && routes == old(routes)
      ensures pluginName in registry.factories && InitAccepts(registry.factories[pluginName], config) ==>
        r == Ok(Unit) && inputId in routes && routes == old(routes)[inputId := routes[inputId]] &&
        |routes[inputId]| == |RoutesOf(old(routes), inputId)| + 1 &&
        routes[inputId][..|routes[inputId]| - 1] == RoutesOf(old(routes), inputId) &&
        var added := routes[inputId][|routes[inputId]| - 1];
        added.prefix == prefix && Kind(added.destination) == registry.factories[pluginName] &&
        fresh(Obj(added.destination)) && IsHealthy(added.destination)
    {
      var created := registry.Create(pluginName);
      if created.Err? {
        return Err(created.error);
      }
      var dest := created.value;
      var init := Initialize(dest, config);
      if init.Err? {
        return Err(init.error);
      }
      var existing := RoutesOf(routes, inputId);
      routes := routes[inputId := existing + [Route(dest, prefix)]];
      assert routes[inputId][..|routes[inputId]| - 1] == existing;
      r := Ok(Unit);
    }

    /**
     * `start`: hands the receiver and the routes to the routing task,
     * leaving the host with neither. Calling it a second time panics.
     */
    method Start() returns (rx: Channel<RecognitionResult>, taken: map<string, seq<Route>>)
      requires resultRx.Some?
      modifies this
      ensures rx == old(resultRx).value && taken == old(routes)
      ensures resultRx == None && routes == map[] && taskStarted
    {
      rx := resultRx.value;
      taken := routes;
      resultRx := None;
      routes := map[];
      taskStarted := true;
    }
  }
}
