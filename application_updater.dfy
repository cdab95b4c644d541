/** The block-number tracker: per connected chain it keeps the highest block
    number reported so far, and forwards it to the wallet store while the
    window is visible. Listener registration, the initial query and the
    100 ms debounce are not modelled; each reported block is one call. */
module ApplicationUpdater {
  import opened Common
  import opened Stores

  /** The tracker's state: the chain it follows and the block seen, if any. */
  datatype BlockState = BlockState(chainId: Option<int>, blockNumber: Option<nat>)

  function Max(a: nat, b: nat): nat {
    if a >= b then a else b
  }

  /** The `blockNumberCallback` update for a block reported while connected to
      `chainId`: a report for another chain is ignored; otherwise the first
      report is taken as is and later ones keep the maximum. */
  function OnBlock(chainId: Option<int>, state: BlockState, blockNumber: nat): (r: BlockState)
    ensures chainId != state.chainId ==> r == state
    ensures chainId == state.chainId ==>
      && r.chainId == chainId && r.blockNumber.Some?
      && r.blockNumber.value >= blockNumber
      && (state.blockNumber.None? ==> r.blockNumber.value == blockNumber)
      && (state.blockNumber.Some? ==>
            r.blockNumber.value >= state.blockNumber.value
            && (r.blockNumber.value == blockNumber || r.blockNumber.value == state.blockNumber.value))
  {
    if chainId == state.chainId then
      if state.blockNumber.None? then BlockState(chainId, Some(blockNumber))
      else BlockState(chainId, Some(Max(blockNumber, state.blockNumber.value)))
    else state
  }

  /** The block number never goes down. */
  lemma OnBlockMonotone(chainId: Option<int>, state: BlockState, blockNumber: nat)
    requires state.blockNumber.Some?
    ensures OnBlock(chainId, state, blockNumber).blockNumber.Some?
    ensures OnBlock(chainId, state, blockNumber).blockNumber.value >= state.blockNumber.value
  {
  }

  /** Reporting the block just recorded changes nothing. */
  lemma OnBlockIdempotent(chainId: Option<int>, state: BlockState, blockNumber: nat)
    ensures var s := OnBlock(chainId, state, blockNumber);
      OnBlock(chainId, s, blockNumber) == s
  {
  }

  /** Two reports give the same state in either order. */
  lemma OnBlockCommutes(chainId: Option<int>, state: BlockState, a: nat, b: nat)
    ensures OnBlock(chainId, OnBlock(chainId, state, a), b) == OnBlock(chainId, OnBlock(chainId, state, b), a)
  {
  }

  /** The reports `blocks`, one call each, in order. */
  function Replay(chainId: Option<int>, state: BlockState, blocks: seq<nat>): BlockState
    decreases |blocks|
  {
    if blocks == [] then state
    else Replay(chainId, OnBlock(chainId, state, blocks[0]), blocks[1..])
  }

  /** The largest of a non-empty list of block numbers. */
  function SeqMax(blocks: seq<nat>): (m: nat)
    requires blocks != []
    ensures m in blocks
    ensures forall i :: 0 <= i < |blocks| ==> blocks[i] <= m
  {
    if |blocks| == 1 then blocks[0] else Max(blocks[0], SeqMax(blocks[1..]))
  }

  /** After freshly attaching to a chain, any series of reports for it leaves
      exactly the highest block reported. */
  lemma {:induction false} ReplayKeepsMaximum(chainId: Option<int>, start: Option<nat>, blocks: seq<nat>)
    requires blocks != []
    ensures Replay(chainId, BlockState(chainId, start), blocks) ==
      BlockState(chainId, Some(if start.None? then SeqMax(blocks) else Max(start.value, SeqMax(blocks))))
    decreases |blocks|
  {
    var next := OnBlock(chainId, BlockState(chainId, start), blocks[0]);
    if |blocks| > 1 {
      ReplayKeepsMaximum(chainId, next.blockNumber, blocks[1..]);
    }
  }

  /** Reports that arrive for another chain leave the state untouched. */
  lemma {:induction false} ReplayOtherChain(chainId: Option<int>, state: BlockState, blocks: seq<nat>)
    requires chainId != state.chainId
    ensures Replay(chainId, state, blocks) == state
    decreases |blocks|
  {
    if blocks != [] {
      ReplayOtherChain(chainId, state, blocks[1..]);
    }
  }

  /** The tracker component's state. */
  class Updater {
    var state: BlockState

    /** It starts on the connected chain with no block. */
    constructor (chainId: Option<int>)
      ensures state == BlockState(chainId, None)
    {
      state := BlockState(chainId, None);
    }

    /** `blockNumberCallback`. */
    method BlockNumberCallback(chainId: Option<int>, blockNumber: nat)
      modifies this
      ensures state == OnBlock(chainId, old(state), blockNumber)
    {
      if chainId == state.chainId {
        if state.blockNumber.None? {
          state := BlockState(chainId, Some(blockNumber));
          return;
        }
        state := BlockState(chainId, Some(if blockNumber >= state.blockNumber.value then blockNumber else state.blockNumber.value));
      }
    }

    /** The attach effect: with a library, a (non-zero) chain and a visible
        window the state restarts on that chain with no block. */
    method Attach(hasLibrary: bool, chainId: Option<int>, windowVisible: bool) returns (attached: bool)
      modifies this
      ensures attached <==> hasLibrary && chainId.Some? && chainId.value != 0 && windowVisible
      ensures attached ==> state == BlockState(chainId, None)
      ensures !attached ==> state == old(state)
    {
      if !hasLibrary || chainId.None? || chainId.value == 0 || !windowVisible {
        return false;
      }
      state := BlockState(chainId, None);
      return true;
    }
  }

  /** Whether the (debounced) state is forwarded to the wallet store. */
  predicate ShouldDispatch(debounced: BlockState, windowVisible: bool) {
    && debounced.chainId.Some? && debounced.chainId.value != 0
    && debounced.blockNumber.Some? && debounced.blockNumber.value != 0
    && windowVisible
  }

  /** The dispatch effect: records the block for the chain, or does nothing. */
  method Dispatch(debounced: BlockState, windowVisible: bool, wallet: ConnectWalletModel)
    modifies wallet
    ensures ShouldDispatch(debounced, windowVisible) ==>
      wallet.Snapshot() == old(wallet.Snapshot()).(blockNumber :=
        old(wallet.blockNumber)[debounced.chainId.value := debounced.blockNumber.value])
    ensures !ShouldDispatch(debounced, windowVisible) ==> wallet.Snapshot() == old(wallet.Snapshot())
  {
    if debounced.chainId.None? || debounced.chainId.value == 0
       || debounced.blockNumber.None? || debounced.blockNumber.value == 0 || !windowVisible {
      return;
    }
    wallet.UpdateBlockNumber(debounced.chainId.value, debounced.blockNumber.value);
  }
}
