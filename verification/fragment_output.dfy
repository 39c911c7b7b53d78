/**
 * What the output of a thread has to say when its trace holds parts of calls as
 * well, and which calls are not recorded because of that.
 */
module FragmentOutput {
  import opened Common
  import H = Histogram
  import opened FuncStats
  import opened Analyzer
  import opened CallTree
  import opened Restarts
  import opened Buckets
  import opened OutputSpec
  import opened Fragments

  function RestStart(r: Remainder): Open {
    if r.back.Some? then Start(r.back.value) else Open(0, 0, 0)
  }

  /** What the rest of a call was charged with goes to a caller called `unknown`. */
  function FromRest(cfg: Config, r: Remainder, who: Maybe<string>, n: string): Cell {
    if who == Some("unknown") then FromItems(cfg, RestStart(r), r.items, n) else Nothing
  }

  function FromPiece(cfg: Config, p: Piece, who: Maybe<string>, n: string): Cell {
    match p
    case Whole(t) => FromStretch(cfg, t, who, n)
    case Rest(r) => FromRest(cfg, r, who, n)
    case Strayed(t, r) => Both(Both(FromLosts(cfg, t.lost, who, n), FromTear(cfg, t, who, n)), FromRest(cfg, r, who, n))
  }

  function FromPieces(cfg: Config, ps: seq<Piece>, who: Maybe<string>, n: string): Cell {
    if ps == [] then Nothing else Both(FromPiece(cfg, ps[0], who, n), FromPieces(cfg, ps[1..], who, n))
  }

  /** The stretches among the pieces: only these have latencies. */
  function Wholes(ps: seq<Piece>): seq<Stretch> {
    if ps == [] then [] else (if ps[0].Whole? then [ps[0].stretch] else []) + Wholes(ps[1..])
  }

  function PieceSwitches(p: Piece): nat {
    match p
    case Whole(t) => StretchSwitches(t)
    case Rest(r) => ItemSwitches(r.items)
    case Strayed(t, r) => LostSwitches(t.lost) + PartSwitches(t.last) + ItemSwitches(r.items)
  }

  function PiecesSwitches(ps: seq<Piece>): nat {
    if ps == [] then 0 else PieceSwitches(ps[0]) + PiecesSwitches(ps[1..])
  }

  function PieceUnknowns(cfg: Config, p: Piece): nat {
    match p
    case Whole(t) => StretchUnknowns(cfg, t)
    case Rest(_) => 0
    case Strayed(t, _) => LostCount(cfg, t.lost)
  }

  function PiecesUnknowns(cfg: Config, ps: seq<Piece>): nat {
    if ps == [] then 0 else PieceUnknowns(cfg, ps[0]) + PiecesUnknowns(cfg, ps[1..])
  }

  /** What is owed to a caller. */
  function OwedFor(owed: seq<Charge>, who: Maybe<string>, n: string): Cell {
    if who == Some("unknown") then Bag(owed, n) else Nothing
  }

  lemma {:induction false} RestBag(cfg: Config, r: Remainder, who: Maybe<string>, n: string)
    requires ValidRest(cfg, r)
    ensures OwedFor(RestCharges(cfg, r), who, n) == FromRest(cfg, r, who, n)
  {
    hide Bag, Charges, FromItems, ValidItem;
    ItemsBag(cfg, if r.back.Some? then r.back.value else Nowhere, 0, RestStart(r), r.items, n);
  }

  lemma {:induction false} OwedConcat(a: seq<Charge>, b: seq<Charge>, who: Maybe<string>, n: string)
    ensures OwedFor(a + b, who, n) == Both(OwedFor(a, who, n), OwedFor(b, who, n))
  {
    hide Bag, Both;
    BagConcat(a, b, n);
    BothNothing(Nothing);
  }

  lemma {:induction false} OwedNothing(who: Maybe<string>, n: string)
    ensures OwedFor([], who, n) == Nothing
  {
    hide Bag;
    BagNone(n);
  }

  lemma {:induction false} FileOutput(stat: Stat, owed: seq<Charge>, who: Maybe<string>, n: string, x: Cell,
                                      lats: seq<nat>, offs: seq<nat>)
    requires Output(Part(stat, who), n, x, lats, offs)
    ensures Output(Part(AddUnknown(stat, Tally(owed), "unknown"), who), n, Both(x, OwedFor(owed, who, n)), lats, offs)
  {
    hide Output, Part, AddUnknown, Tally, Bag, Both;
    TallyHolds(owed, n);
    FiledOutput(stat, Tally(owed), Bag(owed, n), who, n, x, lats, offs);
  }

  lemma {:induction false} SettleOutput(stat: Stat, owed: seq<Charge>, who: Maybe<string>, n: string, x: Cell,
                                        lats: seq<nat>, offs: seq<nat>)
    requires Output(Part(stat, who), n, x, lats, offs)
    ensures Output(Part(Settle(stat, owed), who), n, Both(x, OwedFor(owed, who, n)), lats, offs)
  {
    hide Output, Part, AddUnknown, Tally, OwedFor, Both;
    if owed == [] {
      OwedNothing(who, n);
      BothNothing(x);
    } else {
      FileOutput(stat, owed, who, n, x, lats, offs);
    }
  }

  lemma {:induction false} WholeOutput(cfg: Config, stat: Stat, owed: seq<Charge>, t: Stretch, who: Maybe<string>,
                                       n: string, x: Cell, lats: seq<nat>, offs: seq<nat>) returns (y: Cell)
    requires ValidStretch(cfg, t) && Output(Part(stat, who), n, x, lats, offs)
    ensures var z := AccountPiece(cfg, stat, owed, Whole(t));
      && Output(Part(z.0, who), n, y, lats + LatencyOf(cfg, t, who), offs + OffTimeOf(cfg, t, who))
      && Both(y, OwedFor(z.1, who, n)) == Both(Both(x, OwedFor(owed, who, n)), FromStretch(cfg, t, who, n))
  {
    hide Output, Part, AddUnknown, Tally, OwedFor, Both, Settle, AccountAttempts, AccountTear, ValidAttempts, ValidTear,
        FromLosts, FromTear, Mine, FromCall;
    assert lats + [] == lats && offs + [] == offs;
    var w := OwedFor(owed, who, n);
    OwedNothing(who, n);
    BothNothing(Both(x, w));
    match t
    case Away(_) =>
      y := x;
      CountedPart(stat, 1, who);
    case Fault(_) =>
      y := Both(x, w);
      FileOutput(stat, owed, who, n, x, lats, offs);
    case Called(_) =>
      y := Both(Both(x, w), FromStretch(cfg, t, who, n));
      SettleOutput(stat, owed, who, n, x, lats, offs);
      StretchOutput(cfg, Settle(stat, owed), t, who, n, Both(x, w), lats, offs);
      BothNothing(y);
    case Torn(_, _) =>
      y := Both(Both(x, w), FromStretch(cfg, t, who, n));
      SettleOutput(stat, owed, who, n, x, lats, offs);
      StretchOutput(cfg, Settle(stat, owed), t, who, n, Both(x, w), lats, offs);
      BothNothing(y);
  }

  lemma {:induction false} StrayedOutput(cfg: Config, stat: Stat, owed: seq<Charge>, p: Piece, who: Maybe<string>,
                                         n: string, x: Cell, lats: seq<nat>, offs: seq<nat>) returns (y: Cell)
    requires p.Strayed? && ValidPiece(cfg, p) && Output(Part(stat, who), n, x, lats, offs)
    ensures var z := AccountPiece(cfg, stat, owed, p);
      && Output(Part(z.0, who), n, y, lats, offs)
      && Both(y, OwedFor(z.1, who, n)) == Both(Both(x, OwedFor(owed, who, n)), FromPiece(cfg, p, who, n))
  {
    hide Output, Part, Both, Settle, ValidLost, ValidRest, FromLosts, FromPart, FromRest, LostCharges, RestCharges,
        AccountLosts, LostOffs, OffCount, Bag;
    var t, r, w := p.tear, p.rest, OwedFor(owed, who, n);
    var x1, f, g := Both(x, w), FromLosts(cfg, t.lost, who, n), FromTear(cfg, t, who, n);
    SettleOutput(stat, owed, who, n, x, lats, offs);
    var s1 := AccountLosts(cfg, Settle(stat, owed), t.lost);
    LostsOutput(cfg, Settle(stat, owed), t.lost, who, n, x1, lats, offs);
    y := Both(x1, f);
    CountedPart(s1, LostOffs(t.last), who);
    CountedPart(Counted(s1, LostOffs(t.last)), OffCount(r.items), who);
    PartShows(cfg, t.last, n);
    RestBag(cfg, r, who, n);
    OwedConcat(LostCharges(cfg, t.last), RestCharges(cfg, r), who, n);
    BothAssoc(x1, f, Both(g, FromRest(cfg, r, who, n)));
    BothAssoc(f, g, FromRest(cfg, r, who, n));
  }

  lemma {:induction false} PieceOutput(cfg: Config, stat: Stat, owed: seq<Charge>, p: Piece, who: Maybe<string>,
                                       n: string, x: Cell, lats: seq<nat>, offs: seq<nat>) returns (y: Cell)
    requires ValidPiece(cfg, p) && Output(Part(stat, who), n, x, lats, offs)
    ensures var z, ts := AccountPiece(cfg, stat, owed, p), if p.Whole? then [p.stretch] else [];
      && Output(Part(z.0, who), n, y, lats + Latencies(cfg, ts, who), offs + OffTimes(cfg, ts, who))
      && Both(y, OwedFor(z.1, who, n)) == Both(Both(x, OwedFor(owed, who, n)), FromPiece(cfg, p, who, n))
  {
    hide Output, Part, OwedFor, Both, ValidStretch, ValidTear, ValidRest, FromStretch, AccountStretch, FromRest,
        RestCharges,
        FromTear, FromLosts, LatencyOf, OffTimeOf, Before, Settle, LostCharges, OffCount;
    assert lats + [] == lats && offs + [] == offs;
    match p
    case Whole(t) =>
      y := WholeOutput(cfg, stat, owed, t, who, n, x, lats, offs);
      assert LatencyOf(cfg, t, who) + [] == LatencyOf(cfg, t, who)
          && OffTimeOf(cfg, t, who) + [] == OffTimeOf(cfg, t, who);
    case Strayed(_, _) => y := StrayedOutput(cfg, stat, owed, p, who, n, x, lats, offs);
    case Rest(r) =>
      y := x;
      CountedPart(stat, OffCount(r.items), who);
      RestBag(cfg, r, who, n);
      OwedConcat(owed, RestCharges(cfg, r), who, n);
      BothAssoc(x, OwedFor(owed, who, n), FromRest(cfg, r, who, n));
  }

  lemma {:induction false} PiecesOutput(cfg: Config, stat: Stat, owed: seq<Charge>, ps: seq<Piece>, who: Maybe<string>,
                                        n: string, x: Cell, lats: seq<nat>, offs: seq<nat>)
    requires ValidPieces(cfg, ps) && Output(Part(stat, who), n, x, lats, offs)
    ensures Output(Part(AccountPieces(cfg, stat, owed, ps), who), n,
                   Both(Both(x, OwedFor(owed, who, n)), FromPieces(cfg, ps, who, n)),
                   lats + Latencies(cfg, Wholes(ps), who), offs + OffTimes(cfg, Wholes(ps), who))
    decreases |ps|
  {
    hide Output, Part, OwedFor, Both, ValidPiece, FromPiece, AccountPiece, Settle, LatencyOf, OffTimeOf;
    var w := Both(x, OwedFor(owed, who, n));
    if ps == [] {
      assert lats + [] == lats && offs + [] == offs;
      SettleOutput(stat, owed, who, n, x, lats, offs);
      BothNothing(w);
    } else {
      var z, ts, rest := AccountPiece(cfg, stat, owed, ps[0]), if ps[0].Whole? then [ps[0].stretch] else [], ps[1..];
      var y := PieceOutput(cfg, stat, owed, ps[0], who, n, x, lats, offs);
      PiecesOutput(cfg, z.0, z.1, rest, who, n, y, lats + Latencies(cfg, ts, who), offs + OffTimes(cfg, ts, who));
      BothAssoc(w, FromPiece(cfg, ps[0], who, n), FromPieces(cfg, rest, who, n));
      LatenciesConcat(cfg, ts, Wholes(rest), who);
      assert lats + (Latencies(cfg, ts, who) + Latencies(cfg, Wholes(rest), who))
          == lats + Latencies(cfg, ts, who) + Latencies(cfg, Wholes(rest), who);
      assert offs + (OffTimes(cfg, ts, who) + OffTimes(cfg, Wholes(rest), who))
          == offs + OffTimes(cfg, ts, who) + OffTimes(cfg, Wholes(rest), who);
    }
  }

  lemma {:induction false} LatenciesConcat(cfg: Config, a: seq<Stretch>, b: seq<Stretch>, who: Maybe<string>)
    requires |a| <= 1
    ensures Latencies(cfg, a + b, who) == Latencies(cfg, a, who) + Latencies(cfg, b, who)
    ensures OffTimes(cfg, a + b, who) == OffTimes(cfg, a, who) + OffTimes(cfg, b, who)
  {
    hide LatencyOf, OffTimeOf;
    if a == [] {
      assert a + b == b;
    } else {
      assert (a + b)[1..] == b;
    }
  }

  lemma {:induction false} SettleCounts(stat: Stat, owed: seq<Charge>)
    ensures Settle(stat, owed).schedCount == stat.schedCount
    ensures Settle(stat, owed).latency.unknown == stat.latency.unknown
    ensures AddUnknown(stat, Tally(owed), "unknown").schedCount == stat.schedCount
    ensures AddUnknown(stat, Tally(owed), "unknown").latency.unknown == stat.latency.unknown
  {
    hide AddUnknown, Tally;
    UnknownPart(stat, Tally(owed), "unknown", None);
  }

  lemma {:induction false} PieceCounts(cfg: Config, stat: Stat, owed: seq<Charge>, p: Piece)
    requires ValidPiece(cfg, p)
    ensures var x := AccountPiece(cfg, stat, owed, p).0;
      && x.schedCount == stat.schedCount + PieceSwitches(p)
      && x.latency.unknown == stat.latency.unknown + PieceUnknowns(cfg, p)
  {
    hide Settle, AddUnknown, AccountStretch, AccountLosts, LostCharges, RestCharges, OffCount, ItemSwitches,
        LostSwitches,
        LostCount, ValidStretch, ValidLost, ValidRest;
    SettleCounts(stat, owed);
    match p
    case Whole(t) => if t.Called? || t.Torn? { StretchCounts(cfg, Settle(stat, owed), t); }
    case Rest(r) => SwitchesAre(r.items);
    case Strayed(t, r) =>
      LostCounts(cfg, Settle(stat, owed), t.lost);
      SwitchesAre(t.last.items);
      SwitchesAre(r.items);
  }

  lemma {:induction false} PiecesCount(cfg: Config, stat: Stat, owed: seq<Charge>, ps: seq<Piece>)
    requires ValidPieces(cfg, ps)
    ensures var x := AccountPieces(cfg, stat, owed, ps);
      && x.schedCount == stat.schedCount + PiecesSwitches(ps)
      && x.latency.unknown == stat.latency.unknown + PiecesUnknowns(cfg, ps)
    decreases |ps|
  {
    hide AccountPiece, PieceSwitches, PieceUnknowns, ValidPiece, Settle;
    if ps == [] {
      SettleCounts(stat, owed);
    } else {
      var x := AccountPiece(cfg, stat, owed, ps[0]);
      PieceCounts(cfg, stat, owed, ps[0]);
      PiecesCount(cfg, x.0, x.1, ps[1..]);
    }
  }

  /**
   * The output on traces with parts of calls: latencies come from the whole
   * calls only, and every bucket counts and adds up exactly the children, code
   * blocks and own shares of its name.
   */
  lemma {:induction false} OutputOf(cfg: Config, ps: seq<Piece>, who: Maybe<string>, n: string)
    requires ValidPieces(cfg, ps) && TimeOrdered(PiecesActions(ps))
    ensures var s := Finish(Run(cfg, Init, PiecesActions(ps)));
      && Output(Part(s, who), n, FromPieces(cfg, ps, who, n), Latencies(cfg, Wholes(ps), who),
                OffTimes(cfg, Wholes(ps), who))
      && s.schedCount == PiecesSwitches(ps) && s.latency.unknown == PiecesUnknowns(cfg, ps)
  {
    hide Run, Finish, PiecesActions, AccountPieces, ValidPieces, Output, Part, FromPieces, Both, Latencies, OffTimes,
        PiecesSwitches, PiecesUnknowns;
    FragmentsMeetSpec(cfg, ps);
    NothingOutput(who, n);
    PiecesOutput(cfg, NoStat, [], ps, who, n, Nothing, [], []);
    OwedNothing(who, n);
    var x := FromPieces(cfg, ps, who, n);
    BothNothing(Nothing);
    BothNothing(x);
    PiecesCount(cfg, NoStat, [], ps);
    assert [] + Latencies(cfg, Wholes(ps), who) == Latencies(cfg, Wholes(ps), who);
    assert [] + OffTimes(cfg, Wholes(ps), who) == OffTimes(cfg, Wholes(ps), who);
  }

  // ----- calls that are not recorded

  lemma {:induction false} LatenciesAre(cfg: Config, ps: seq<Piece>)
    requires ValidPieces(cfg, ps) && TimeOrdered(PiecesActions(ps))
    ensures Finish(Run(cfg, Init, PiecesActions(ps))).latency.target == H.Of(Latencies(cfg, Wholes(ps), None))
  {
    hide Run, Finish, PiecesActions, ValidPieces, FromPieces, Latencies, OffTimes, PiecesSwitches, PiecesUnknowns, H.Of,
        Wholes;
    OutputOf(cfg, ps, None, "");
  }

  lemma {:induction false} OneLatency(cfg: Config, a: Attempts)
    ensures Latencies(cfg, [Called(a)], None) ==
      if Asked(cfg.opt, a.call) then [Span(a.call.entry.ts, a.call.ret.ts)] else []
  {
    assert [Called(a)][1..] == [];
  }

  /**
   * A call from which the ip-filter's trace ends once and starts again: it is
   * recorded if and only if the trace did not end in a system call.
   */
  lemma {:induction false} RecordedIff(cfg: Config, entry: Action, leave: Action, back: Action, ret: Action)
    requires !entry.isError && AtHead(entry) && Leaves(leave) && Resumes(back) && Returns(ret)
    requires leave.kind in {TR_END_CALL, TR_END_HW_INT, TR_END_SYSCALL} && back.kind == TR_START
    requires TimeOrdered([entry, leave, back, ret]) && Asked(cfg.opt, Call(entry, [], ret))
    ensures Finish(Run(cfg, Init, [entry, leave, back, ret])).latency.target ==
      H.Of(if leave.kind == TR_END_SYSCALL then [] else [Span(entry.ts, ret.ts)])
  {
    hide Run, Finish, H.Of, TimeOrdered;
    if leave.kind == TR_END_SYSCALL {
      var p := Strayed(Tear([], Lost(entry, [], InChildOf(leave, []))), Remainder(Some(back), [], Some(ret)));
      assert PiecesActions([p]) == [entry, leave, back, ret];
      LatenciesAre(cfg, [p]);
    } else {
      var call := Call(entry, [Child(leave, [], back)], ret);
      var p := Whole(Called(Attempts([], call)));
      assert ItemsActions(call.items) == [leave, back];
      assert PiecesActions([p]) == [entry, leave, back, ret];
      assert Wholes([p]) == [p.stretch];
      OneLatency(cfg, p.stretch.attempts);
      LatenciesAre(cfg, [p]);
    }
  }

  /** Of a call whose child calls the target again, the inner call is recorded and the outer one is not. */
  lemma {:induction false} OuterIsHidden(cfg: Config, outer: Lost, inner: Call, rest: Remainder)
    requires ValidLost(cfg, outer) && ValidCall(cfg, inner) && ValidRest(cfg, rest)
    requires TimeOrdered(LostActions(outer) + CallActions(inner) + RestActions(rest))
    ensures var s := Finish(Run(cfg, Init, LostActions(outer) + CallActions(inner) + RestActions(rest)));
      s.latency.target == H.Of(if Asked(cfg.opt, inner) then [Span(inner.entry.ts, inner.ret.ts)] else [])
  {
    hide Run, Finish, H.Of, LostActions, CallActions, RestActions, ValidLost, ValidCall, ValidRest, Asked, TimeOrdered;
    var ps := [Whole(Called(Attempts([outer], inner))), Rest(rest)];
    assert ps[1..] == [Rest(rest)] && ps[1..][1..] == [] && [outer][1..] == [];
    assert AllLost([outer]) == LostActions(outer) + [] == LostActions(outer);
    assert PiecesActions([Rest(rest)]) == RestActions(rest) + [] == RestActions(rest);
    assert PiecesActions(ps) == LostActions(outer) + CallActions(inner) + RestActions(rest);
    assert Wholes([Rest(rest)]) == [];
    assert Wholes(ps) == [ps[0].stretch] + [] == [ps[0].stretch];
    OneLatency(cfg, ps[0].stretch.attempts);
    LatenciesAre(cfg, ps);
  }
}
