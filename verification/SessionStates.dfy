/** The per-session state graph and the guarded transition on a persisted record. */
module SessionStates {
  import opened Wrappers

  datatype SessionState =
    | HostReadOnly
    | CreatingSandbox
    | SandboxActive
    | ResultReady
    | ApplyPending
    | Applied
    | Rejected
    | Retained
    | FailedClosed

  predicate Legal(from: SessionState, to: SessionState) {
    match from
    case HostReadOnly => to.CreatingSandbox?
    case CreatingSandbox => to.SandboxActive? || to.FailedClosed? || to.HostReadOnly?
    case SandboxActive => to.CreatingSandbox? || to.ResultReady? || to.FailedClosed? || to.Retained?
    case ResultReady => to.ApplyPending? || to.Rejected? || to.Retained? || to.SandboxActive? || to.CreatingSandbox?
    case ApplyPending => to.Applied? || to.FailedClosed? || to.ResultReady?
    case Applied => to.Retained?
    case Rejected => false
    case Retained => to.ResultReady?
    case FailedClosed => false
  }

  predicate Terminal(s: SessionState) { s.Applied? || s.Rejected? || s.Retained? || s.FailedClosed? }

  /** A path in the legal graph. */
  predicate LegalPath(path: seq<SessionState>) {
    forall i :: 0 <= i < |path| - 1 ==> Legal(path[i], path[i + 1])
  }

  /** REJECTED and FAILED_CLOSED are the absorbing states, and the only ones. */
  lemma AbsorbingStates(s: SessionState)
    ensures s in {Rejected, FailedClosed} <==> forall path: seq<SessionState> | LegalPath(path) && |path| > 0 && path[0] == s :: |path| == 1
  {
    if s in {Rejected, FailedClosed} {
      forall path: seq<SessionState> | LegalPath(path) && |path| > 0 && path[0] == s
        ensures |path| == 1
      {
        assert |path| > 1 ==> Legal(path[0], path[1]);
      }
    } else {
      var next := if Legal(s, CreatingSandbox) then CreatingSandbox
                  else if Legal(s, SandboxActive) then SandboxActive
                  else if Legal(s, ResultReady) then ResultReady
                  else Retained;
      var path := [s, next];
      assert LegalPath(path) && path[0] == s && |path| == 2;
    }
  }

  /**
   * Once a path has passed RESULT_READY, a state that can still build a worker
   * is reached again only through a new creation: the states between are
   * exactly those that keep a result.
   */
  predicate KeepsResult(s: SessionState) { s.ResultReady? || s.ApplyPending? || s.Applied? || s.Retained? }

  lemma {:induction false} ResultIsLeftOnlyDeliberately(path: seq<SessionState>)
    requires LegalPath(path) && |path| > 0 && path[0] == ResultReady
    ensures (forall s <- path :: KeepsResult(s))
            || exists i :: 0 < i < |path| && path[i] in {Rejected, FailedClosed, SandboxActive, CreatingSandbox}
                           && forall j :: 0 <= j < i ==> KeepsResult(path[j])
  {
    var n := |path| - 1;
    if n > 0 {
      assert LegalPath(path[..n]) by {
        forall i | 0 <= i < n - 1 ensures Legal(path[..n][i], path[..n][i + 1]) {
          assert Legal(path[i], path[i + 1]);
        }
      }
      ResultIsLeftOnlyDeliberately(path[..n]);
      assert Legal(path[n - 1], path[n]);
      if forall s <- path[..n] :: KeepsResult(s) {
        assert path[n - 1] in path[..n];
        forall j | 0 <= j < n ensures KeepsResult(path[j]) {
          assert path[..n][j] == path[j];
        }
        if KeepsResult(path[n]) {
          forall s | s in path ensures KeepsResult(s) {
            var j :| 0 <= j < |path| && path[j] == s;
          }
        }
      } else {
        var i :| 0 < i < n && path[..n][i] in {Rejected, FailedClosed, SandboxActive, CreatingSandbox}
                 && forall j :: 0 <= j < i ==> KeepsResult(path[..n][j]);
        forall j | 0 <= j < i ensures KeepsResult(path[j]) {
          assert path[..n][j] == path[j];
        }
      }
    }
  }
}
