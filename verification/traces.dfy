/**
 * Sequences of requests made by one browser against one session: what the
 * admin gate lets through over time, not just in a single request.
 */
module Traces {
  import opened Wrappers
  import opened Gate

  /** The session after a run of requests and the answer to each request in turn. */
  datatype Trace = Trace(session: Session, outcomes: seq<Outcome>)

  /** Handle `reqs` one after another, threading the session through. */
  function Serve(s: Session, reqs: seq<Request>): (t: Trace)
    ensures |t.outcomes| == |reqs|
    decreases |reqs|
  {
    if reqs == [] then Trace(s, [])
    else
      var t := Serve(s, reqs[..|reqs| - 1]);
      var r := Step(t.session, reqs[|reqs| - 1]);
      Trace(r.session, t.outcomes + [r.outcome])
  }

  predicate GoodLogin(req: Request) {
    req == LoginAttempt(Some(AdminCredential), Some(AdminCredential))
  }

  /** No logout among `reqs[lo..hi]`. */
  predicate NoLogoutIn(reqs: seq<Request>, lo: nat, hi: nat)
    requires lo <= hi <= |reqs|
  {
    forall m :: lo <= m < hi ==> reqs[m] != LogoutVisit
  }

  /** Some request before index `k` was a good login, and no logout came after it. */
  predicate LoggedInSince(reqs: seq<Request>, k: nat)
    requires k <= |reqs|
  {
    exists j :: 0 <= j < k && GoodLogin(reqs[j]) && NoLogoutIn(reqs, j + 1, k)
  }

  /** The only identity a login ever stores is the admin credential. */
  predicate AdminOrAnonymous(s: Session) {
    s.identity == None || s.identity == Some(AdminCredential)
  }

  /** Request `j` went through the admin filter while the session was anonymous, so the filter blocked it. */
  predicate BlockedVisit(s: Session, reqs: seq<Request>, j: nat)
    requires j < |reqs|
  {
    Filtered(reqs[j]) && !Authenticated(Serve(s, reqs[..j]).session)
  }

  /** None of the requests with index in `lo..hi` was a blocked admin visit. */
  predicate NoBlockedIn(s: Session, reqs: seq<Request>, lo: nat, hi: nat)
    requires lo <= hi <= |reqs|
  {
    forall m :: lo <= m < hi ==> !BlockedVisit(s, reqs, m)
  }

  /** The answer to request `i` is the answer `Step` gives in the session left by the requests before it. */
  lemma {:induction false} ServeAt(s: Session, reqs: seq<Request>, i: nat)
    requires i < |reqs|
    ensures Serve(s, reqs).outcomes[i] == Step(Serve(s, reqs[..i]).session, reqs[i]).outcome
    decreases |reqs|
  {
    var n := |reqs| - 1;
    if i < n {
      ServeAt(s, reqs[..n], i);
      assert reqs[..n][..i] == reqs[..i];
    } else {
      assert reqs[..i] == reqs[..n];
    }
  }

  /** The session left by the first `k + 1` requests is one `Step` on from the one left by the first `k`. */
  lemma PrefixStep(s: Session, reqs: seq<Request>, k: nat)
    requires k < |reqs|
    ensures Serve(s, reqs[..k + 1]).session == Step(Serve(s, reqs[..k]).session, reqs[k]).session
  {
    assert reqs[..k + 1][..k] == reqs[..k];
  }

  /** No sequence of requests stores an identity other than the admin credential. */
  lemma {:induction false} ServeKeepsAdminIdentity(s: Session, reqs: seq<Request>)
    requires AdminOrAnonymous(s)
    ensures AdminOrAnonymous(Serve(s, reqs).session)
    decreases |reqs|
  {
    if reqs != [] {
      ServeKeepsAdminIdentity(s, reqs[..|reqs| - 1]);
    }
  }

  /** Without a blocked admin visit among the first `k` requests, `previous_url` keeps its starting value. */
  lemma {:induction false} PreviousUrlUntouched(s: Session, reqs: seq<Request>, k: nat)
    requires k <= |reqs|
    requires NoBlockedIn(s, reqs, 0, k)
    ensures Serve(s, reqs[..k]).session.previousUrl == s.previousUrl
  {
    if k == 0 {
      assert reqs[..0] == [];
    } else {
      PreviousUrlUntouched(s, reqs, k - 1);
      PrefixStep(s, reqs, k - 1);
      assert !BlockedVisit(s, reqs, k - 1);
    }
  }

  /**
   * After the first `k` requests, `previous_url` is the request path of the last
   * blocked admin visit among them (the last write wins).
   */
  lemma {:induction false} PreviousUrlIsLastBlocked(s: Session, reqs: seq<Request>, k: nat, j: nat)
    requires j < k <= |reqs|
    requires BlockedVisit(s, reqs, j)
    requires NoBlockedIn(s, reqs, j + 1, k)
    ensures Serve(s, reqs[..k]).session.previousUrl == Some(reqs[j].path)
  {
    PrefixStep(s, reqs, k - 1);
    if k - 1 > j {
      PreviousUrlIsLastBlocked(s, reqs, k - 1, j);
      assert !BlockedVisit(s, reqs, k - 1);
    }
  }

  /** A good login redirects back to the path of the last blocked admin visit before it. */
  lemma RedirectToLastBlocked(s: Session, reqs: seq<Request>, i: nat, j: nat)
    requires j < i < |reqs|
    requires GoodLogin(reqs[i])
    requires BlockedVisit(s, reqs, j)
    requires NoBlockedIn(s, reqs, j + 1, i)
    ensures Serve(s, reqs).outcomes[i] == Redirect(reqs[j].path)
  {
    ServeAt(s, reqs, i);
    PreviousUrlIsLastBlocked(s, reqs, i, j);
  }

  /**
   * A good login with no blocked admin visit before it redirects to the starting
   * `previous_url`, or to `/admin` when none was recorded.
   */
  lemma RedirectWithoutBlocked(s: Session, reqs: seq<Request>, i: nat)
    requires i < |reqs|
    requires GoodLogin(reqs[i])
    requires NoBlockedIn(s, reqs, 0, i)
    ensures Serve(s, reqs).outcomes[i] == Redirect(s.previousUrl.GetOr(AdminPath))
  {
    ServeAt(s, reqs, i);
    PreviousUrlUntouched(s, reqs, i);
  }

  /** The usual flow: blocked at `path`, a wrong password, then the right one sends the user back to `path`. */
  lemma BlockedWrongThenRight(s: Session, path: string, username: Option<string>, password: Option<string>)
    requires !Authenticated(s)
    requires !(username == Some(AdminCredential) && password == Some(AdminCredential))
    ensures Serve(s, [AdminVisit(path), LoginAttempt(username, password), LoginAttempt(Some(AdminCredential), Some(AdminCredential))]).outcomes
            == [Blocked(path), Rejected(), Redirect(path)]
  {
    var good := LoginAttempt(Some(AdminCredential), Some(AdminCredential));
    var r1 := [AdminVisit(path)];
    var r2 := r1 + [LoginAttempt(username, password)];
    var r3 := r2 + [good];
    assert r1[..0] == [];
    var blocked := Session(None, Some(path));
    assert Serve(s, r1) == Trace(blocked, [Blocked(path)]);
    assert r2[..1] == r1;
    assert Serve(s, r2) == Trace(blocked, [Blocked(path), Rejected()]);
    assert r3[..2] == r2;
    assert Serve(s, r3).outcomes == [Blocked(path), Rejected(), Redirect(path)];
    assert r3 == [AdminVisit(path), LoginAttempt(username, password), good];
  }

  /**
   * Starting anonymous, the session is authenticated after the first `k` requests
   * exactly when one of them was a good login that no later logout undid.
   */
  lemma {:induction false} AuthenticatedIff(s: Session, reqs: seq<Request>, k: nat)
    requires !Authenticated(s)
    requires k <= |reqs|
    ensures Authenticated(Serve(s, reqs[..k]).session) <==> LoggedInSince(reqs, k)
  {
    if k == 0 {
      assert reqs[..0] == [];
    } else {
      var j := k - 1;
      AuthenticatedIff(s, reqs, j);
      PrefixStep(s, reqs, j);
      if GoodLogin(reqs[j]) {
        assert NoLogoutIn(reqs, j + 1, k);
      } else if reqs[j] == LogoutVisit {
        forall w | 0 <= w < k && GoodLogin(reqs[w])
          ensures !NoLogoutIn(reqs, w + 1, k)
        {
          assert w + 1 <= j;
        }
      } else {
        assert Authenticated(Serve(s, reqs[..k]).session) == Authenticated(Serve(s, reqs[..j]).session);
        if LoggedInSince(reqs, k) {
          var w :| 0 <= w < k && GoodLogin(reqs[w]) && NoLogoutIn(reqs, w + 1, k);
          assert w < j && NoLogoutIn(reqs, w + 1, j);
        }
        if LoggedInSince(reqs, j) {
          var w :| 0 <= w < j && GoodLogin(reqs[w]) && NoLogoutIn(reqs, w + 1, j);
          assert NoLogoutIn(reqs, w + 1, k);
        }
      }
    }
  }

  /**
   * Starting anonymous, request `i` is answered with the admin view exactly when it
   * is an admin visit and an earlier good login has not been undone by a logout.
   */
  lemma AdminViewIff(s: Session, reqs: seq<Request>, i: nat)
    requires !Authenticated(s)
    requires i < |reqs|
    ensures Serve(s, reqs).outcomes[i] == RenderAdmin <==> reqs[i].AdminVisit? && LoggedInSince(reqs, i)
  {
    ServeAt(s, reqs, i);
    AuthenticatedIff(s, reqs, i);
  }
}
