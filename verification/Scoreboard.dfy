/** What a scan of the scoreboard concludes. */
module Scoreboard {
  import opened Protocol
  import opened TwoPhase

  // The scan's result after these slots; None when a slot makes the main thread terminate.
  function Scan(second: bool, board: seq<Kind>): Option<Status> {
    if board == [] then Some(if second then CommitSuccess else RequestSuccess)
    else match Scan(second, board[..|board| - 1])
      case None => None
      case Some(result) => ScanSlot(second, result, board[|board| - 1])
  }

  predicate Expected(slot: Kind) { slot == VoteYes || slot == VoteNo || slot == Lost }

  // Slot i is the last one that is not a yes.
  predicate LastDissent(board: seq<Kind>, i: nat) {
    i < |board| && board[i] != VoteYes && forall k :: i < k < |board| ==> board[k] == VoteYes
  }

  /** Phase 1 terminates exactly on an unexpected slot, and otherwise succeeds exactly when every slot is a yes. */
  lemma {:induction false} Phase1Verdict(board: seq<Kind>)
    ensures Scan(false, board) == None <==> exists i :: 0 <= i < |board| && !Expected(board[i])
    ensures Scan(false, board) == Some(RequestSuccess) <==> forall i :: 0 <= i < |board| ==> board[i] == VoteYes
    ensures Scan(false, board) == Some(RequestFail) ==> exists i :: 0 <= i < |board| && board[i] == VoteNo
    ensures Scan(false, board).Some? ==> Scan(false, board).value in {RequestSuccess, RequestFail, ClusterFail}
  {
    if board != [] {
      var front := board[..|board| - 1];
      Phase1Verdict(front);
      assert forall i :: 0 <= i < |front| ==> board[i] == front[i];
    }
  }

  /** The break leaves only the switch: a lost vote before a no is forgotten, and the other way round. */
  lemma {:induction false} LastDissentDecides(board: seq<Kind>, i: nat)
    requires LastDissent(board, i) && forall k :: 0 <= k < |board| ==> Expected(board[k])
    ensures Scan(false, board) == Some(if board[i] == VoteNo then RequestFail else ClusterFail)
  {
    var front := board[..|board| - 1];
    if i < |front| {
      LastDissentDecides(front, i);
    } else {
      Phase1Verdict(front);
    }
  }

  // A scan that has met an unexpected slot does not recover.
  lemma {:induction false} NoneStays(second: bool, board: seq<Kind>, k: nat)
    requires k <= |board| && Scan(second, board[..k]) == None
    ensures Scan(second, board) == None
  {
    if k == |board| {
      assert board[..k] == board;
    } else {
      var front := board[..|board| - 1];
      assert front[..k] == board[..k];
      NoneStays(second, front, k);
    }
  }

  // On a board of votes a single no decides.
  lemma VotesOnly(board: seq<Kind>)
    requires forall i :: 0 <= i < |board| ==> board[i] == VoteYes || board[i] == VoteNo
    requires exists i :: 0 <= i < |board| && board[i] == VoteNo
    ensures Scan(false, board) == Some(RequestFail)
  {
    var i := LastNo(board);
    LastDissentDecides(board, i);
  }

  lemma {:induction false} LastNo(board: seq<Kind>) returns (i: nat)
    requires forall i :: 0 <= i < |board| ==> board[i] == VoteYes || board[i] == VoteNo
    requires exists i :: 0 <= i < |board| && board[i] == VoteNo
    ensures LastDissent(board, i) && board[i] == VoteNo
  {
    i := |board| - 1;
    if board[i] != VoteNo {
      i := LastNo(board[..i]);
    }
  }

  lemma OrderOfDissentMatters()
    ensures Scan(false, [Lost, VoteNo]) == Some(RequestFail)
    ensures Scan(false, [VoteNo, Lost]) == Some(ClusterFail)
  {
    LastDissentDecides([Lost, VoteNo], 1);
    LastDissentDecides([VoteNo, Lost], 1);
  }

  /** Phase 2 succeeds exactly when every slot is an acknowledgement, and fails the cluster otherwise. */
  lemma {:induction false} Phase2Verdict(board: seq<Kind>)
    ensures Scan(true, board) ==
      Some(if forall i :: 0 <= i < |board| ==> board[i] == Ack then CommitSuccess else ClusterFail)
  {
    if board != [] {
      var front := board[..|board| - 1];
      Phase2Verdict(front);
      assert forall i :: 0 <= i < |front| ==> board[i] == front[i];
    }
  }
}
