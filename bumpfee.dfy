/**
 * The fee-escalation monitor (address/cmd/bumpfee/main.go).
 *
 * Every poll cycle the monitor reads the node's block height, lists each
 * wallet's unconfirmed outputs, starts tracking every transaction it has not
 * seen before (estimating its fee rate once), and asks the node to bump the
 * fee of every tracked transaction that is old enough, as long as the capped
 * new rate is at least one sat/vB above the tracked one.
 *
 * The RPC answers are inputs: every unspent output carries the answers that
 * `gettransaction` and `bumpfee` give for it in this cycle, every wallet the
 * answer `listunspent` gives for it.
 */
module BumpFee {
  import opened Wrappers

  /** Satoshis in one coin: `gettransaction` reports the fee in coins. */
  const SatoshisPerCoin: real := 100000000.0

  /** The node's incremental relay fee: a replacement must pay at least 1 sat/vB more (rule 4 of BIP 125). */
  const MinIncrement: real := 1.0

  /** The operator's settings that the decision policy reads. */
  datatype Config = Config(
    isBump: bool,               // false: dry run, nothing is sent to the node
    bumpfeeBlockInterval: int,  // age in blocks before a bump is considered
    feeBumpAmount: real,        // added to the tracked fee rate
    feeCap: real)               // the new fee rate never exceeds this

  /** What the monitor remembers about one unconfirmed transaction. */
  datatype TxInfo = TxInfo(walletName: string, firstBlockHeight: int, currentFeerate: real)

  /** The tracking table, keyed by txid. */
  type Table = map<string, TxInfo>

  /** Answer of `gettransaction`: any RPC error or a reply without a numeric fee and a string hex is a failure. */
  datatype TxLookup = LookupFailed | Found(fee: real, hex: string)

  /** Answer of `bumpfee`: an RPC error, a non-object reply or a reply without a string txid is a failure. */
  datatype BumpReply = BumpFailed | Replaced(newTxid: string)

  /** One element of a `listunspent` reply, with the answers the node gives about its transaction. */
  datatype Unspent = MalformedOutput | Output(txid: string, lookup: TxLookup, bump: BumpReply)

  /** Answer of `listunspent` for one wallet. */
  datatype Scan = ScanFailed | Scanned(outputs: seq<Unspent>)

  /** One element of the `listwallets` reply. */
  datatype WalletEntry = NotAName | WalletName(name: string)

  /** Answer of `listwallets`, asked once at start-up. */
  datatype WalletListing = ListingFailed | Listed(entries: seq<WalletEntry>)

  /** Answer of `getblockcount`. */
  datatype BlockCount = CountFailed | Count(height: int)

  /** What happened to one unspent output. */
  datatype Outcome =
    | Skipped          // the element is not an object with a string txid
    | Untracked        // new txid whose details could not be fetched: retried next cycle
    | NotAged          // tracked, but younger than the interval
    | BelowIncrement   // aged, but the capped rate is less than 1 above the tracked one
    | BumpRejected     // bumpfee was called and failed: still tracked
    | Bumped(newTxid: string)
    | Simulated        // dry run: forgotten without calling the node

  /** A `bumpfee` call sent to the node: the wallet whose URL it goes to, the txid and the integer fee rate. */
  datatype BumpCall = BumpCall(wallet: string, txid: string, feeRate: int)

  datatype StepResult = StepResult(table: Table, outcome: Outcome, call: Option<BumpCall>)

  /** The table and the `bumpfee` calls, in order, after some outputs or wallets. */
  datatype Progress = Progress(table: Table, calls: seq<BumpCall>)

  function Abs(x: real): (r: real)
    ensures r >= 0.0 && (r == x || r == -x)
  {
    if x < 0.0 then -x else x
  }

  /**
   * The fee rate estimated when a transaction is first seen: the absolute fee
   * in satoshis over the size in bytes, the size being half the hex length.
   */
  function EstimateFeerate(fee: real, hexLen: nat): (rate: real)
    requires hexLen > 0
    ensures rate >= 0.0
    ensures rate * (hexLen as real / 2.0) == Abs(fee) * SatoshisPerCoin
  {
    Abs(fee) * SatoshisPerCoin / hexLen as real * 2.0
  }

  /** The rate a bump would ask for: the tracked rate plus the bump amount, capped. */
  function CandidateRate(rate: real, cfg: Config): (r: real)
    ensures r <= cfg.feeCap && r <= rate + cfg.feeBumpAmount
    ensures r == cfg.feeCap || r == rate + cfg.feeBumpAmount
  {
    var raised := rate + cfg.feeBumpAmount;
    if raised > cfg.feeCap then cfg.feeCap else raised
  }

  /** A bump is worth sending when the capped rate is at least the minimum increment above the tracked one. */
  predicate WorthBumping(rate: real, cfg: Config)
    ensures WorthBumping(rate, cfg) <==> cfg.feeBumpAmount >= MinIncrement && cfg.feeCap - rate >= MinIncrement
  {
    CandidateRate(rate, cfg) - rate >= MinIncrement
  }

  /** A tracked transaction is old enough once the interval has passed since it was first seen. */
  predicate Aged(info: TxInfo, height: int, cfg: Config)
  {
    height - info.firstBlockHeight >= cfg.bumpfeeBlockInterval
  }

  /** Rounding to the nearest integer, halves away from zero, as Go's math.Round does. */
  function Round(x: real): (n: int)
    ensures x >= 0.0 ==> n >= 0 && n as real - 0.5 <= x < n as real + 0.5
    ensures x < 0.0 ==> n <= 0 && n as real - 0.5 < x <= n as real + 0.5
  {
    if x >= 0.0 then (x + 0.5).Floor else -((-x + 0.5).Floor)
  }

  predicate HexPresent(u: Unspent)
  {
    u.Output? && u.lookup.Found? ==> |u.lookup.hex| > 0
  }

  predicate AllHexPresent(outs: seq<Unspent>)
  {
    forall i | 0 <= i < |outs| :: HexPresent(outs[i])
  }

  /** The entry the escalation test looks at: the tracked one, or the one just created from the lookup. */
  function Considered(t: Table, wallet: string, height: int, u: Unspent): (info: Option<TxInfo>)
    requires u.Output? && HexPresent(u)
    ensures u.txid in t ==> info == Some(t[u.txid])
    ensures u.txid !in t && u.lookup.LookupFailed? ==> info == None
    ensures u.txid !in t && u.lookup.Found? ==>
      info.Some? && info.value.walletName == wallet && info.value.firstBlockHeight == height &&
      info.value.currentFeerate * (|u.lookup.hex| as real / 2.0) == Abs(u.lookup.fee) * SatoshisPerCoin
  {
    if u.txid in t then Some(t[u.txid])
    else match u.lookup
      case LookupFailed => None
      case Found(fee, hex) => Some(TxInfo(wallet, height, EstimateFeerate(fee, |hex|)))
  }

  /** The escalation decision for a tracked entry `info` of `txid`. */
  function Escalate(cfg: Config, t: Table, wallet: string, height: int, txid: string, info: TxInfo, bump: BumpReply): (r: StepResult)
    requires txid in t && t[txid] == info
    ensures r.table == t || r.table == t - {txid}
    ensures r.call.Some? <==> Aged(info, height, cfg) && WorthBumping(info.currentFeerate, cfg) && cfg.isBump
    ensures r.call.Some? ==> r.call.value == BumpCall(wallet, txid, Round(CandidateRate(info.currentFeerate, cfg)))
    ensures txid !in r.table <==>
      Aged(info, height, cfg) && WorthBumping(info.currentFeerate, cfg) && (!cfg.isBump || bump.Replaced?)
  {
    if !Aged(info, height, cfg) then StepResult(t, NotAged, None)
    else
      var candidate := CandidateRate(info.currentFeerate, cfg);
      var rounded := Round(candidate);
      if !WorthBumping(info.currentFeerate, cfg) then StepResult(t, BelowIncrement, None)
      else if !cfg.isBump then StepResult(t - {txid}, Simulated, None)
      else match bump
        case BumpFailed => StepResult(t, BumpRejected, Some(BumpCall(wallet, txid, rounded)))
        case Replaced(newTxid) => StepResult(t - {txid}, Bumped(newTxid), Some(BumpCall(wallet, txid, rounded)))
  }

  /**
   * One unspent output of `wallet` at block `height`: track its transaction if
   * it is new, then decide on escalation, for new and old entries alike.
   */
  function OutputStep(cfg: Config, t: Table, wallet: string, height: int, u: Unspent): (r: StepResult)
    requires HexPresent(u)
    ensures u.MalformedOutput? ==> r == StepResult(t, Skipped, None)
    ensures u.Output? ==> forall k | k in t && k != u.txid :: k in r.table && r.table[k] == t[k]
    ensures u.Output? ==> forall k | k in r.table :: k in t || k == u.txid
    // an entry, once made, is never changed; a new one records the current height and the estimate
    ensures u.Output? && u.txid in r.table ==>
      Considered(t, wallet, height, u).Some? && r.table[u.txid] == Considered(t, wallet, height, u).value
    // a failed lookup leaves the txid untracked, to be tried again next cycle
    ensures u.Output? && u.txid !in t && u.lookup.LookupFailed? ==> r == StepResult(t, Untracked, None)
    // bumpfee is called exactly when an entry is aged, worth bumping and apply mode is on
    ensures u.Output? && Considered(t, wallet, height, u).Some? ==>
      var info := Considered(t, wallet, height, u).value;
      && (r.call.Some? <==> Aged(info, height, cfg) && WorthBumping(info.currentFeerate, cfg) && cfg.isBump)
      && (r.call.Some? ==> r.call.value == BumpCall(wallet, u.txid, Round(CandidateRate(info.currentFeerate, cfg))))
      && (u.txid !in r.table <==>
            Aged(info, height, cfg) && WorthBumping(info.currentFeerate, cfg) && (!cfg.isBump || u.bump.Replaced?))
  {
    match u
    case MalformedOutput => StepResult(t, Skipped, None)
    case Output(txid, lookup, bump) =>
      if txid in t then Escalate(cfg, t, wallet, height, txid, t[txid], bump)
      else match lookup
        case LookupFailed => StepResult(t, Untracked, None)
        case Found(fee, hex) =>
          var info := TxInfo(wallet, height, EstimateFeerate(fee, |hex|));
          Escalate(cfg, t[txid := info], wallet, height, txid, info, bump)
  }

  /** The txids of the well-formed outputs of a scan. */
  function TxidsOf(outs: seq<Unspent>): set<string>
  {
    if outs == [] then {}
    else (if outs[0].Output? then {outs[0].txid} else {}) + TxidsOf(outs[1..])
  }

  /** An entry created at `height` for `wallet` with a non-negative estimate. */
  predicate CreatedAt(info: TxInfo, wallet: string, height: int)
  {
    info.walletName == wallet && info.firstBlockHeight == height && info.currentFeerate >= 0.0
  }

  /** All outputs of one wallet's scan, in scan order: at most one bumpfee call per output. */
  function WalletPass(cfg: Config, t: Table, wallet: string, height: int, outs: seq<Unspent>): (p: Progress)
    requires AllHexPresent(outs)
    ensures |p.calls| <= |outs|
    decreases |outs|
  {
    if outs == [] then Progress(t, [])
    else
      var s := OutputStep(cfg, t, wallet, height, outs[0]);
      var rest := WalletPass(cfg, s.table, wallet, height, outs[1..]);
      Progress(rest.table, (if s.call.Some? then [s.call.value] else []) + rest.calls)
  }

  lemma AllHexPresentTail(outs: seq<Unspent>)
    requires outs != [] && AllHexPresent(outs)
    ensures HexPresent(outs[0]) && AllHexPresent(outs[1..])
  {
    forall i | 0 <= i < |outs[1..]| ensures HexPresent(outs[1..][i]) {
      assert outs[1..][i] == outs[i + 1];
    }
  }

  /** What one wallet's pass does to the table and which calls it may make. */
  lemma {:induction false} WalletPassFrame(cfg: Config, t: Table, wallet: string, height: int, outs: seq<Unspent>)
    requires AllHexPresent(outs)
    // a txid the scan does not list (for one, a transaction that confirmed) is kept as it was
    ensures var p := WalletPass(cfg, t, wallet, height, outs);
      forall k | k in t && k !in TxidsOf(outs) :: k in p.table && p.table[k] == t[k]
    // every entry afterwards is an untouched old one or was created in this pass
    ensures var p := WalletPass(cfg, t, wallet, height, outs);
      forall k | k in p.table ::
        (k in t && p.table[k] == t[k]) || (k in TxidsOf(outs) && CreatedAt(p.table[k], wallet, height))
    ensures var p := WalletPass(cfg, t, wallet, height, outs);
      forall c | c in p.calls :: c.wallet == wallet && c.txid in TxidsOf(outs)
    decreases |outs|
  {
    if outs != [] {
      AllHexPresentTail(outs);
      var u := outs[0];
      var s := OutputStep(cfg, t, wallet, height, u);
      WalletPassFrame(cfg, s.table, wallet, height, outs[1..]);
      var rest := WalletPass(cfg, s.table, wallet, height, outs[1..]);
      var p := WalletPass(cfg, t, wallet, height, outs);
      assert TxidsOf(outs) == (if u.Output? then {u.txid} else {}) + TxidsOf(outs[1..]);
      forall k | k in s.table && !(k in t && s.table[k] == t[k])
        ensures k in TxidsOf(outs) && CreatedAt(s.table[k], wallet, height)
      {
        assert u.Output? && k == u.txid && u.txid !in t;
      }
      forall c | c in p.calls ensures c.wallet == wallet && c.txid in TxidsOf(outs) {
        if c !in rest.calls {
          assert s.call.Some? && c == s.call.value;
        }
      }
    }
  }

  predicate CycleInputs(wallets: seq<WalletEntry>, scans: seq<Scan>)
  {
    |scans| == |wallets| &&
    forall i | 0 <= i < |scans| :: scans[i].Scanned? ==> AllHexPresent(scans[i].outputs)
  }

  /** The txids that the cycle looks at: those listed for a named wallet whose scan succeeded. */
  function CycleTxids(wallets: seq<WalletEntry>, scans: seq<Scan>): set<string>
    requires |scans| == |wallets|
  {
    if wallets == [] then {}
    else
      (if wallets[0].WalletName? && scans[0].Scanned? then TxidsOf(scans[0].outputs) else {})
      + CycleTxids(wallets[1..], scans[1..])
  }

  /** The names of the wallets in a listing. */
  function Names(wallets: seq<WalletEntry>): set<string>
  {
    set i | 0 <= i < |wallets| && wallets[i].WalletName? :: wallets[i].name
  }

  /** Every entry of `t` was created at some height for one of `names`, with a non-negative estimate. */
  predicate EntriesValid(t: Table, names: set<string>)
  {
    forall k | k in t :: t[k].walletName in names && t[k].currentFeerate >= 0.0
  }

  /** The wallets of one cycle, in listing order; a wallet that is not a name, or whose scan failed, is skipped. */
  function CyclePass(cfg: Config, t: Table, height: int, wallets: seq<WalletEntry>, scans: seq<Scan>): (p: Progress)
    requires CycleInputs(wallets, scans)
    decreases |wallets|
  {
    if wallets == [] then Progress(t, [])
    else
      var here :=
        if wallets[0].WalletName? && scans[0].Scanned?
        then WalletPass(cfg, t, wallets[0].name, height, scans[0].outputs)
        else Progress(t, []);
      var rest := CyclePass(cfg, here.table, height, wallets[1..], scans[1..]);
      Progress(rest.table, here.calls + rest.calls)
  }

  /** The first wallet of a cycle, then the others from the table it leaves. */
  lemma CyclePassUnfold(cfg: Config, t: Table, height: int, wallets: seq<WalletEntry>, scans: seq<Scan>)
    requires CycleInputs(wallets, scans) && wallets != []
    ensures CycleInputs(wallets[1..], scans[1..])
    ensures scans[0].Scanned? ==> AllHexPresent(scans[0].outputs)
    ensures
      var here :=
        if wallets[0].WalletName? && scans[0].Scanned?
        then WalletPass(cfg, t, wallets[0].name, height, scans[0].outputs)
        else Progress(t, []);
      var rest := CyclePass(cfg, here.table, height, wallets[1..], scans[1..]);
      CyclePass(cfg, t, height, wallets, scans) == Progress(rest.table, here.calls + rest.calls)
  {
    assert scans[0] == scans[0 + 0];
    assert CycleInputs(wallets[1..], scans[1..]) by {
      forall i | 0 <= i < |scans[1..]| && scans[1..][i].Scanned?
        ensures AllHexPresent(scans[1..][i].outputs)
      {
        assert scans[1..][i] == scans[i + 1];
      }
    }
  }

  lemma CycleInputsSuffix(wallets: seq<WalletEntry>, scans: seq<Scan>, i: nat)
    requires CycleInputs(wallets, scans) && i <= |wallets|
    ensures CycleInputs(wallets[i..], scans[i..])
  {
    forall j | 0 <= j < |scans[i..]| && scans[i..][j].Scanned?
      ensures AllHexPresent(scans[i..][j].outputs)
    {
      assert scans[i..][j] == scans[i + j];
    }
  }

  lemma NamesTail(wallets: seq<WalletEntry>)
    requires wallets != []
    ensures Names(wallets[1..]) <= Names(wallets)
    ensures wallets[0].WalletName? ==> wallets[0].name in Names(wallets)
  {
    forall n | n in Names(wallets[1..]) ensures n in Names(wallets) {
      var i :| 0 <= i < |wallets[1..]| && wallets[1..][i].WalletName? && wallets[1..][i].name == n;
      assert wallets[i + 1] == wallets[1..][i];
    }
  }

  /** What a cycle does to the table and which calls it may make. */
  lemma {:induction false} CyclePassFrame(cfg: Config, t: Table, height: int, wallets: seq<WalletEntry>, scans: seq<Scan>)
    requires CycleInputs(wallets, scans)
    // a txid no scan of this cycle lists is kept as it was
    ensures var p := CyclePass(cfg, t, height, wallets, scans);
      forall k | k in t && k !in CycleTxids(wallets, scans) :: k in p.table && p.table[k] == t[k]
    // every entry afterwards is an untouched old one or was created in this cycle for a listed wallet
    ensures var p := CyclePass(cfg, t, height, wallets, scans);
      forall k | k in p.table ::
        (k in t && p.table[k] == t[k]) ||
        (k in CycleTxids(wallets, scans) && p.table[k].walletName in Names(wallets) &&
         p.table[k].firstBlockHeight == height && p.table[k].currentFeerate >= 0.0)
    ensures var p := CyclePass(cfg, t, height, wallets, scans);
      forall c | c in p.calls :: c.wallet in Names(wallets) && c.txid in CycleTxids(wallets, scans)
    decreases |wallets|
  {
    if wallets != [] {
      CyclePassUnfold(cfg, t, height, wallets, scans);
      NamesTail(wallets);
      var here :=
        if wallets[0].WalletName? && scans[0].Scanned?
        then WalletPass(cfg, t, wallets[0].name, height, scans[0].outputs)
        else Progress(t, []);
      if wallets[0].WalletName? && scans[0].Scanned? {
        WalletPassFrame(cfg, t, wallets[0].name, height, scans[0].outputs);
      }
      CyclePassFrame(cfg, here.table, height, wallets[1..], scans[1..]);
    }
  }

  /** A cycle keeps every entry attached to a listed wallet, with a non-negative fee rate. */
  lemma CyclePreservesValid(cfg: Config, t: Table, height: int, wallets: seq<WalletEntry>, scans: seq<Scan>)
    requires CycleInputs(wallets, scans)
    requires EntriesValid(t, Names(wallets))
    ensures EntriesValid(CyclePass(cfg, t, height, wallets, scans).table, Names(wallets))
  {
    var p := CyclePass(cfg, t, height, wallets, scans);
    CyclePassFrame(cfg, t, height, wallets, scans);
    forall k | k in p.table ensures p.table[k].walletName in Names(wallets) && p.table[k].currentFeerate >= 0.0 {
      if k in t && p.table[k] == t[k] {
        assert t[k].walletName in Names(wallets);
      }
    }
  }

  /** In a dry run no wallet pass sends anything to the node. */
  lemma {:induction false} DryRunWalletSendsNothing(cfg: Config, t: Table, wallet: string, height: int, outs: seq<Unspent>)
    requires !cfg.isBump && AllHexPresent(outs)
    ensures WalletPass(cfg, t, wallet, height, outs).calls == []
    decreases |outs|
  {
    if outs != [] {
      var s := OutputStep(cfg, t, wallet, height, outs[0]);
      assert AllHexPresent(outs[1..]) by {
        forall i | 0 <= i < |outs[1..]| ensures HexPresent(outs[1..][i]) {
          assert outs[1..][i] == outs[i + 1];
        }
      }
      DryRunWalletSendsNothing(cfg, s.table, wallet, height, outs[1..]);
    }
  }

  /** In a dry run a whole cycle sends nothing to the node. */
  lemma {:induction false} DryRunCycleSendsNothing(cfg: Config, t: Table, height: int, wallets: seq<WalletEntry>, scans: seq<Scan>)
    requires !cfg.isBump && CycleInputs(wallets, scans)
    ensures CyclePass(cfg, t, height, wallets, scans).calls == []
    decreases |wallets|
  {
    if wallets != [] {
      var here :=
        if wallets[0].WalletName? && scans[0].Scanned?
        then WalletPass(cfg, t, wallets[0].name, height, scans[0].outputs)
        else Progress(t, []);
      if wallets[0].WalletName? && scans[0].Scanned? {
        DryRunWalletSendsNothing(cfg, t, wallets[0].name, height, scans[0].outputs);
      }
      assert CycleInputs(wallets[1..], scans[1..]) by {
        forall i | 0 <= i < |scans[1..]| && scans[1..][i].Scanned?
          ensures AllHexPresent(scans[1..][i].outputs)
        {
          assert scans[1..][i] == scans[i + 1];
        }
      }
      DryRunCycleSendsNothing(cfg, here.table, height, wallets[1..], scans[1..]);
    }
  }

  /**
   * An entry whose capped rate is less than the minimum increment above its
   * tracked rate is left as it is, with no call, in every later cycle: its rate
   * never changes, so the skip repeats until the settings change.
   */
  lemma BelowIncrementRepeats(cfg: Config, t: Table, wallet: string, height: int, u: Unspent)
    requires u.Output? && u.txid in t && HexPresent(u)
    requires Aged(t[u.txid], height, cfg) && !WorthBumping(t[u.txid].currentFeerate, cfg)
    ensures OutputStep(cfg, t, wallet, height, u) == StepResult(t, BelowIncrement, None)
  {
  }

  /** Once aged, an entry stays aged at every later height: the age test is never skipped again. */
  lemma AgedStaysAged(info: TxInfo, h0: int, h1: int, cfg: Config)
    requires Aged(info, h0, cfg) && h0 <= h1
    ensures Aged(info, h1, cfg)
  {
  }

  const ScenarioConfig: Config := Config(true, 5, 2.0, 10.0)

  /** Tracked at height 100 with rate 9.5: at height 105 the cap leaves a delta of 0.5, so nothing is sent and the entry stays. */
  lemma ScenarioBelowIncrement(wallet: string, txid: string, lookup: TxLookup, bump: BumpReply)
    requires HexPresent(Output(txid, lookup, bump))
    ensures var t := map[txid := TxInfo(wallet, 100, 9.5)];
      OutputStep(ScenarioConfig, t, wallet, 105, Output(txid, lookup, bump)) == StepResult(t, BelowIncrement, None)
  {
    var t := map[txid := TxInfo(wallet, 100, 9.5)];
    assert CandidateRate(9.5, ScenarioConfig) == 10.0;
    assert !WorthBumping(9.5, ScenarioConfig);
  }

  /** Tracked at height 100 with rate 5.0: at height 106 one call asks for rate 7; a replacement removes the entry, a failure keeps it. */
  lemma ScenarioBumped(wallet: string, txid: string, lookup: TxLookup, bump: BumpReply)
    requires HexPresent(Output(txid, lookup, bump))
    ensures var t := map[txid := TxInfo(wallet, 100, 5.0)];
      var r := OutputStep(ScenarioConfig, t, wallet, 106, Output(txid, lookup, bump));
      && r.call == Some(BumpCall(wallet, txid, 7))
      && (bump.Replaced? ==> r.table == map[])
      && (bump.BumpFailed? ==> r.table == t)
  {
    var t := map[txid := TxInfo(wallet, 100, 5.0)];
    assert CandidateRate(5.0, ScenarioConfig) == 7.0;
    assert Round(7.0) == 7;
    assert t - {txid} == map[];
  }

  /** The same entry in a dry run: nothing is sent and the entry is forgotten. */
  lemma ScenarioDryRun(wallet: string, txid: string, lookup: TxLookup, bump: BumpReply)
    requires HexPresent(Output(txid, lookup, bump))
    ensures var t := map[txid := TxInfo(wallet, 100, 5.0)];
      OutputStep(ScenarioConfig.(isBump := false), t, wallet, 106, Output(txid, lookup, bump))
        == StepResult(map[], Simulated, None)
  {
    var t := map[txid := TxInfo(wallet, 100, 5.0)];
    assert CandidateRate(5.0, ScenarioConfig.(isBump := false)) == 7.0;
    assert t - {txid} == map[];
  }

  /** Wallets "w1" and "w2": a failed scan of "w1" does not keep "w2" from being processed in the same cycle. */
  lemma FailedScanSkipsOnlyThatWallet(cfg: Config, t: Table, height: int, outs: seq<Unspent>)
    requires AllHexPresent(outs)
    ensures CyclePass(cfg, t, height, [WalletName("w1"), WalletName("w2")], [ScanFailed, Scanned(outs)])
      == WalletPass(cfg, t, "w2", height, outs)
  {
    var wallets := [WalletName("w1"), WalletName("w2")];
    var scans := [ScanFailed, Scanned(outs)];
    assert wallets[1..] == [WalletName("w2")] && scans[1..] == [Scanned(outs)];
    assert wallets[1..][1..] == [] && scans[1..][1..] == [];
    var p := WalletPass(cfg, t, "w2", height, outs);
    assert p.calls + [] == p.calls;
  }

  /** The monitor's state between cycles: the tracking table and the height seen last. */
  class Monitor {
    const config: Config
    /** The wallets listed once at start-up; a failed listing leaves none. */
    const wallets: seq<WalletEntry>
    var txInfos: Table
    var lastBlockHeight: int

    ghost predicate Valid()
      reads this
    {
      EntriesValid(txInfos, Names(wallets))
    }

    constructor (cfg: Config, listing: WalletListing)
      ensures Valid()
      ensures config == cfg
      ensures wallets == (if listing.Listed? then listing.entries else [])
      ensures txInfos == map[] && lastBlockHeight == -1
    {
      config := cfg;
      wallets := if listing.Listed? then listing.entries else [];
      txInfos := map[];
      lastBlockHeight := -1;
    }

    /** One unspent output of `walletName`, as the innermost loop body does it. */
    method ProcessOutput(walletName: string, height: int, u: Unspent) returns (outcome: Outcome, call: Option<BumpCall>)
      requires HexPresent(u)
      modifies this
      ensures txInfos == OutputStep(config, old(txInfos), walletName, height, u).table
      ensures outcome == OutputStep(config, old(txInfos), walletName, height, u).outcome
      ensures call == OutputStep(config, old(txInfos), walletName, height, u).call
      ensures lastBlockHeight == old(lastBlockHeight)
    {
      call := None;
      if u.MalformedOutput? {
        return Skipped, None;
      }
      var txid := u.txid;
      var info: TxInfo;
      if txid in txInfos {
        info := txInfos[txid];
      } else {
        match u.lookup
        case LookupFailed =>
          return Untracked, None;
        case Found(fee, hex) =>
          info := TxInfo(walletName, height, EstimateFeerate(fee, |hex|));
          txInfos := txInfos[txid := info];
      }
      outcome := NotAged;
      if height - info.firstBlockHeight >= config.bumpfeeBlockInterval {
        var newFeerate := info.currentFeerate + config.feeBumpAmount;
        if newFeerate > config.feeCap {
          newFeerate := config.feeCap;
        }
        var rounded := Round(newFeerate);
        if newFeerate - info.currentFeerate >= MinIncrement {
          if config.isBump {
            call := Some(BumpCall(walletName, txid, rounded));
            match u.bump
            case BumpFailed =>
              outcome := BumpRejected;
            case Replaced(newTxid) =>
              txInfos := txInfos - {txid};
              outcome := Bumped(newTxid);
          } else {
            txInfos := txInfos - {txid};
            outcome := Simulated;
          }
        } else {
          outcome := BelowIncrement;
        }
      }
    }

    /** All outputs of one wallet's scan; returns the bumpfee calls sent, in order. */
    method ProcessWallet(walletName: string, height: int, outs: seq<Unspent>) returns (calls: seq<BumpCall>)
      requires AllHexPresent(outs)
      modifies this
      ensures txInfos == WalletPass(config, old(txInfos), walletName, height, outs).table
      ensures calls == WalletPass(config, old(txInfos), walletName, height, outs).calls
      ensures lastBlockHeight == old(lastBlockHeight)
    {
      ghost var goal := WalletPass(config, txInfos, walletName, height, outs);
      calls := [];
      var i := 0;
      while i < |outs|
        invariant 0 <= i <= |outs|
        invariant lastBlockHeight == old(lastBlockHeight)
        invariant WalletPass(config, txInfos, walletName, height, outs[i..]).table == goal.table
        invariant calls + WalletPass(config, txInfos, walletName, height, outs[i..]).calls == goal.calls
      {
        ghost var before := calls;
        assert outs[i..][0] == outs[i] && outs[i..][1..] == outs[i + 1..];
        AllHexPresentTail(outs[i..]);
        var _, call := ProcessOutput(walletName, height, outs[i]);
        ghost var rest := WalletPass(config, txInfos, walletName, height, outs[i + 1..]);
        if call.Some? {
          calls := calls + [call.value];
          assert before + ([call.value] + rest.calls) == calls + rest.calls;
        } else {
          assert [] + rest.calls == rest.calls;
        }
        i := i + 1;
      }
    }

    /** The loop over the wallets listed at start-up, in listing order. */
    method ProcessWallets(height: int, scans: seq<Scan>) returns (calls: seq<BumpCall>)
      requires CycleInputs(wallets, scans)
      modifies this
      ensures txInfos == CyclePass(config, old(txInfos), height, wallets, scans).table
      ensures calls == CyclePass(config, old(txInfos), height, wallets, scans).calls
      ensures lastBlockHeight == old(lastBlockHeight)
    {
      calls := [];
      ghost var goal := CyclePass(config, txInfos, height, wallets, scans);
      CycleInputsSuffix(wallets, scans, 0);
      assert wallets[0..] == wallets && scans[0..] == scans;
      var i := 0;
      while i < |wallets|
        invariant 0 <= i <= |wallets|
        invariant lastBlockHeight == old(lastBlockHeight)
        invariant CycleInputs(wallets[i..], scans[i..])
        invariant CyclePass(config, txInfos, height, wallets[i..], scans[i..]).table == goal.table
        invariant calls + CyclePass(config, txInfos, height, wallets[i..], scans[i..]).calls == goal.calls
      {
        ghost var before := calls;
        CyclePassUnfold(config, txInfos, height, wallets[i..], scans[i..]);
        assert wallets[i..][0] == wallets[i] && wallets[i..][1..] == wallets[i + 1..];
        assert scans[i..][0] == scans[i] && scans[i..][1..] == scans[i + 1..];
        if wallets[i].WalletName? && scans[i].Scanned? {
          var more := ProcessWallet(wallets[i].name, height, scans[i].outputs);
          ghost var rest := CyclePass(config, txInfos, height, wallets[i + 1..], scans[i + 1..]);
          calls := calls + more;
          assert before + (more + rest.calls) == calls + rest.calls;
        } else {
          assert [] + CyclePass(config, txInfos, height, wallets[i + 1..], scans[i + 1..]).calls
            == CyclePass(config, txInfos, height, wallets[i + 1..], scans[i + 1..]).calls;
        }
        i := i + 1;
      }
    }

    /**
     * One poll cycle. A failed or non-numeric block count restarts the loop at
     * once: nothing changes. Otherwise every wallet is processed and the
     * height becomes the last one seen.
     */
    method RunCycle(count: BlockCount, scans: seq<Scan>) returns (calls: seq<BumpCall>)
      requires Valid()
      requires CycleInputs(wallets, scans)
      modifies this
      ensures Valid()
      ensures count.CountFailed? ==> txInfos == old(txInfos) && lastBlockHeight == old(lastBlockHeight) && calls == []
      ensures count.Count? ==>
        && txInfos == CyclePass(config, old(txInfos), count.height, wallets, scans).table
        && calls == CyclePass(config, old(txInfos), count.height, wallets, scans).calls
        && lastBlockHeight == count.height
    {
      if count.CountFailed? {
        return [];
      }
      var height := count.height;
      ghost var start := txInfos;
      calls := ProcessWallets(height, scans);
      CyclePreservesValid(config, start, height, wallets, scans);
      lastBlockHeight := height;
    }
  }
}
