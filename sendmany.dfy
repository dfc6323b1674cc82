/**
 * The bulk payout tool (address/cmd/sendmany/main.go): it builds one payout
 * map from an address file, then walks the node's wallets over and over,
 * paying out from every wallet whose unconfirmed outputs are small enough,
 * until it has made the configured number of payouts.
 *
 * The RPC answers are inputs: per pass and per wallet, the `listunspent`
 * reply (with the `gettransaction` reply of each output) and the `sendmany`
 * reply.
 */
module SendMany {
  import opened Wrappers

  /** The operator's settings that the loop reads. */
  datatype Config = Config(
    addressLimit: int,   // how many file entries go into the payout map
    amount: real,        // paid to every address
    isSend: bool,        // false: count the payout without sending it
    maxSendCount: int,   // exit after this many payouts
    maxUnconfSize: int)  // a wallet pays out only below this many unconfirmed bytes

  // ---------------------------------------------------------------------
  // The payout map
  // ---------------------------------------------------------------------

  /** The addresses among the first `limit` entries of the file. */
  function LimitedAddresses(addresses: seq<string>, limit: int): set<string>
  {
    set i | 0 <= i < |addresses| && i < limit :: addresses[i]
  }

  /**
   * The `amounts` map: each of the first `limit` addresses, in file order, is
   * mapped to the configured amount; a repeated address is one key.
   */
  method BuildAmounts(addresses: seq<string>, limit: int, amount: real) returns (amounts: map<string, real>)
    ensures amounts.Keys == LimitedAddresses(addresses, limit)
    ensures forall a | a in amounts :: amounts[a] == amount
  {
    amounts := map[];
    var i := 0;
    while i < |addresses|
      invariant 0 <= i <= |addresses|
      invariant i <= limit || i == 0
      invariant amounts.Keys == set j | 0 <= j < i && j < limit :: addresses[j]
      invariant forall a | a in amounts :: amounts[a] == amount
    {
      if i >= limit {
        break;
      }
      amounts := amounts[addresses[i] := amount];
      i := i + 1;
    }
  }

  // ---------------------------------------------------------------------
  // Size of a wallet's unconfirmed transactions
  // ---------------------------------------------------------------------

  /** Answer of `gettransaction`; `hex` is None when the reply has no string hex. */
  datatype TxReply = TxRpcError | TxNotAnObject | Tx(hex: Option<string>)

  /** One element of the `listunspent` reply, with the answer about its transaction. */
  datatype UnspentEntry = NotAnObject | Entry(txid: Option<string>, tx: TxReply)

  /** Bytes an output adds: half its transaction's hex length, when both txid and hex were obtained. */
  function EntrySize(e: UnspentEntry): (n: nat)
    ensures n > 0 ==> e.Entry? && e.txid.Some? && e.tx.Tx? && e.tx.hex.Some?
  {
    if e.Entry? && e.txid.Some? && e.tx.Tx? && e.tx.hex.Some? then |e.tx.hex.value| / 2 else 0
  }

  /** The sum of EntrySize over a reply. */
  function TotalSize(entries: seq<UnspentEntry>): nat
  {
    if entries == [] then 0 else EntrySize(entries[0]) + TotalSize(entries[1..])
  }

  /** The sum splits over concatenation, so it can be accumulated output by output. */
  lemma {:induction false} TotalSizeAppend(a: seq<UnspentEntry>, b: seq<UnspentEntry>)
    ensures TotalSize(a + b) == TotalSize(a) + TotalSize(b)
    decreases |a|
  {
    if a != [] {
      assert (a + b)[1..] == a[1..] + b;
      TotalSizeAppend(a[1..], b);
    } else {
      assert a + b == b;
    }
  }

  /** Outputs whose txid or hex could not be obtained add nothing: the sum is that of the complete outputs. */
  lemma {:induction false} TotalSizeIgnoresFailures(entries: seq<UnspentEntry>, failed: nat)
    requires failed < |entries|
    requires !(entries[failed].Entry? && entries[failed].txid.Some? && entries[failed].tx.Tx? && entries[failed].tx.hex.Some?)
    ensures TotalSize(entries) == TotalSize(entries[..failed] + entries[failed + 1..])
  {
    assert entries == entries[..failed] + [entries[failed]] + entries[failed + 1..];
    TotalSizeAppend(entries[..failed] + [entries[failed]], entries[failed + 1..]);
    TotalSizeAppend(entries[..failed], [entries[failed]]);
    TotalSizeAppend(entries[..failed], entries[failed + 1..]);
    assert TotalSize([entries[failed]]) == 0 by {
      assert [entries[failed]][1..] == [];
    }
  }

  /** The `totalUnconfirmedSize` loop. */
  method UnconfirmedSize(entries: seq<UnspentEntry>) returns (total: int)
    ensures total == TotalSize(entries)
  {
    total := 0;
    var i := 0;
    while i < |entries|
      invariant 0 <= i <= |entries|
      invariant total == TotalSize(entries[..i])
    {
      var e := entries[i];
      if e.Entry? && e.txid.Some? {
        match e.tx {
          case TxRpcError =>
          case TxNotAnObject =>
          case Tx(hex) =>
            if hex.Some? {
              total := total + |hex.value| / 2;
            }
        }
      }
      assert TotalSize([e]) == EntrySize(e) by {
        assert [e][1..] == [];
      }
      TotalSizeAppend(entries[..i], [e]);
      assert entries[..i + 1] == entries[..i] + [e];
      i := i + 1;
    }
    assert entries[..i] == entries;
  }

  // ---------------------------------------------------------------------
  // The payout loop
  // ---------------------------------------------------------------------

  /** Answer of `listunspent`; an RPC error is fatal, a non-array reply skips the wallet. */
  datatype ListReply = ListRpcError | ListNotAnArray | Listed(entries: seq<UnspentEntry>)

  /** Answer of `sendmany`; an RPC error skips the wallet, a reply that is not an object with a string txid is fatal. */
  datatype SendReply = SendRpcError | SendNotAnObject | SendNoTxid | Sent(txid: string)

  /** What the node answers for one wallet in one pass. */
  datatype WalletReplies = WalletReplies(listing: ListReply, send: SendReply)

  /** One element of the `listwallets` reply. */
  datatype WalletEntry = NotAName | WalletName(name: string)

  /** Answer of `listwallets`; anything but a list is fatal. */
  datatype WalletsReply = WalletsRpcError | WalletsNotAnArray | WalletsListed(entries: seq<WalletEntry>)

  /** Running, exited normally (enough payouts made), or stopped by a fatal log. */
  datatype Status = Running | Exited | Fatal

  datatype SendState = SendState(sendCount: int, status: Status)

  /** A wallet passes the gate when its unconfirmed outputs are strictly below the limit. */
  predicate Gated(cfg: Config, listing: ListReply)
  {
    listing.Listed? && TotalSize(listing.entries) < cfg.maxUnconfSize
  }

  /** A payout made: counted, and the process exits once the count reaches the maximum. */
  function Counted(cfg: Config, count: int): SendState
  {
    if count + 1 >= cfg.maxSendCount then SendState(count + 1, Exited) else SendState(count + 1, Running)
  }

  /** One wallet of one pass, from payout count `count`. */
  function WalletStep(cfg: Config, count: int, w: WalletEntry, r: WalletReplies): (s: SendState)
    ensures s.sendCount == count || s.sendCount == count + 1
    ensures s.sendCount == count + 1 <==> w.WalletName? && Gated(cfg, r.listing) && (!cfg.isSend || r.send.Sent?)
    ensures s.status == Exited <==> s.sendCount == count + 1 && s.sendCount >= cfg.maxSendCount
    ensures s.status == Fatal <==>
      w.WalletName? && (r.listing.ListRpcError? ||
        (Gated(cfg, r.listing) && cfg.isSend && (r.send.SendNotAnObject? || r.send.SendNoTxid?)))
  {
    match w
    case NotAName => SendState(count, Running)
    case WalletName(_) =>
      match r.listing
      case ListRpcError => SendState(count, Fatal)
      case ListNotAnArray => SendState(count, Running)
      case Listed(entries) =>
        if TotalSize(entries) < cfg.maxUnconfSize then
          if cfg.isSend then
            match r.send
            case SendRpcError => SendState(count, Running)
            case SendNotAnObject => SendState(count, Fatal)
            case SendNoTxid => SendState(count, Fatal)
            case Sent(_) => Counted(cfg, count)
          else Counted(cfg, count)
        else SendState(count, Running)
  }

  /** The payouts a pass could make: wallets that are names, pass the gate and are paid (or in a dry run). */
  function PaidWallets(cfg: Config, wallets: seq<WalletEntry>, replies: seq<WalletReplies>): nat
    requires |replies| == |wallets|
  {
    if wallets == [] then 0
    else
      (if wallets[0].WalletName? && Gated(cfg, replies[0].listing) && (!cfg.isSend || replies[0].send.Sent?) then 1 else 0)
      + PaidWallets(cfg, wallets[1..], replies[1..])
  }

  /** One pass over the wallets, in listing order, stopping when the process ends. */
  function Pass(cfg: Config, count: int, wallets: seq<WalletEntry>, replies: seq<WalletReplies>): (s: SendState)
    requires |replies| == |wallets|
    requires count < cfg.maxSendCount
    ensures count <= s.sendCount <= count + PaidWallets(cfg, wallets, replies)
    ensures s.status == Running ==> s.sendCount == count + PaidWallets(cfg, wallets, replies)
    ensures s.status != Exited ==> s.sendCount < cfg.maxSendCount
    ensures s.status == Exited ==> s.sendCount == cfg.maxSendCount
    decreases |wallets|
  {
    if wallets == [] then SendState(count, Running)
    else
      var s := WalletStep(cfg, count, wallets[0], replies[0]);
      if s.status != Running then s
      else Pass(cfg, s.sendCount, wallets[1..], replies[1..])
  }

  /** Passes of the outer loop, while the count is below the maximum and the process runs. */
  function Passes(cfg: Config, count: int, wallets: seq<WalletEntry>, passes: seq<seq<WalletReplies>>): (s: SendState)
    requires forall i | 0 <= i < |passes| :: |passes[i]| == |wallets|
    ensures count <= s.sendCount
    ensures count >= cfg.maxSendCount ==> s == SendState(count, Running)
    ensures count < cfg.maxSendCount ==> s.sendCount <= cfg.maxSendCount
    ensures s.status == Exited <==> count < cfg.maxSendCount && s.sendCount == cfg.maxSendCount
    decreases |passes|
  {
    if passes == [] || count >= cfg.maxSendCount then SendState(count, Running)
    else
      var s := Pass(cfg, count, wallets, passes[0]);
      if s.status != Running then s
      else Passes(cfg, s.sendCount, wallets, passes[1..])
  }

  /** The tool's loop state: the wallets listed at start-up, the payout count and whether the process still runs. */
  class Sender {
    const config: Config
    const wallets: seq<WalletEntry>
    var sendCount: int
    var status: Status

    constructor (cfg: Config, reply: WalletsReply)
      ensures config == cfg
      ensures wallets == (if reply.WalletsListed? then reply.entries else [])
      ensures sendCount == 0
      ensures status == (if reply.WalletsListed? then Running else Fatal)
    {
      config := cfg;
      wallets := if reply.WalletsListed? then reply.entries else [];
      sendCount := 0;
      status := if reply.WalletsListed? then Running else Fatal;
    }

    /** One wallet: list its unspent outputs, add up their size, and pay out if the gate lets it. */
    method ProcessWallet(w: WalletEntry, r: WalletReplies)
      requires status == Running
      modifies this
      ensures SendState(sendCount, status) == WalletStep(config, old(sendCount), w, r)
    {
      if w.NotAName? {
        return;
      }
      if r.listing.ListRpcError? {
        status := Fatal;
        return;
      }
      if r.listing.ListNotAnArray? {
        return;
      }
      var totalUnconfirmedSize := UnconfirmedSize(r.listing.entries);
      if totalUnconfirmedSize < config.maxUnconfSize {
        if config.isSend {
          match r.send {
            case SendRpcError =>
              return;
            case SendNotAnObject =>
              status := Fatal;
              return;
            case SendNoTxid =>
              status := Fatal;
              return;
            case Sent(_) =>
              sendCount := sendCount + 1;
          }
        } else {
          sendCount := sendCount + 1;
        }
        if sendCount >= config.maxSendCount {
          status := Exited;
        }
      }
    }

    /** One pass of the outer loop over all wallets. */
    method RunPass(replies: seq<WalletReplies>)
      requires |replies| == |wallets|
      requires status == Running && sendCount < config.maxSendCount
      modifies this
      ensures SendState(sendCount, status) == Pass(config, old(sendCount), wallets, replies)
    {
      ghost var goal := Pass(config, sendCount, wallets, replies);
      var i := 0;
      while i < |wallets|
        invariant 0 <= i <= |wallets|
        invariant status == Running && sendCount < config.maxSendCount
        invariant Pass(config, sendCount, wallets[i..], replies[i..]) == goal
      {
        assert wallets[i..][0] == wallets[i] && wallets[i..][1..] == wallets[i + 1..];
        assert replies[i..][0] == replies[i] && replies[i..][1..] == replies[i + 1..];
        ProcessWallet(wallets[i], replies[i]);
        if status != Running {
          return;
        }
        i := i + 1;
      }
    }

    /** The outer loop `for sendCount < MaxSendCount`, for as many passes as there are answers. */
    method Run(passes: seq<seq<WalletReplies>>)
      requires forall i | 0 <= i < |passes| :: |passes[i]| == |wallets|
      requires status == Running
      modifies this
      ensures SendState(sendCount, status) == Passes(config, old(sendCount), wallets, passes)
    {
      ghost var goal := Passes(config, sendCount, wallets, passes);
      var i := 0;
      while i < |passes| && sendCount < config.maxSendCount
        invariant 0 <= i <= |passes|
        invariant status == Running
        invariant Passes(config, sendCount, wallets, passes[i..]) == goal
      {
        assert passes[i..][0] == passes[i] && passes[i..][1..] == passes[i + 1..];
        RunPass(passes[i]);
        if status != Running {
          return;
        }
        i := i + 1;
      }
    }
  }
}
