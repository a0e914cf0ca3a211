/** Sign-in nonces and session cookies, used once and revoked for good (packages/sdk/src/server.ts). */
module KitSessions {
  import opened Primitives
  import opened KitStore

  const NONCE_TTL_SECONDS: nat := 300
  const NONCE_CLAIM_SECONDS: nat := 360

  function Seconds(ms: nat): nat {
    ms / 1000
  }

  /** The expiry, in seconds, of a nonce issued at `issued` milliseconds. */
  function NonceExpiry(issued: nat): nat {
    Seconds(issued) + NONCE_TTL_SECONDS
  }

  /** `readNonce` accepts the (authentic) nonce cookie at `checked`. */
  predicate NonceAccepted(issued: nat, checked: nat) {
    NonceExpiry(issued) > Seconds(checked)
  }

  /** A sign-in attempt claims the nonce some time after it checked it: other handlers run in between. */
  ghost predicate IsSignIn(ops: seq<Op>, i: nat, key: string, issued: nat, checked: nat, stall: nat)
    requires i < |ops|
  {
    && ops[i] == Claim(key, Some(NONCE_CLAIM_SECONDS), ops[i].now)
    && issued <= checked <= ops[i].now <= checked + stall
    && NonceAccepted(issued, checked)
  }

  /**
   * A nonce issued once yields at most one session: of two sign-ins with it only one gets past its claim, as long as no
   * handler stalls for more than a minute between checking the nonce and claiming it.
   */
  lemma NonceSignsInOnce(ops: seq<Op>, i: nat, j: nat, key: string, issued: nat, checkedI: nat, checkedJ: nat, stall: nat)
    requires InOrder(ops) && i < j < |ops| && stall <= 60_000
    requires IsSignIn(ops, i, key, issued, checkedI, stall) && IsSignIn(ops, j, key, issued, checkedJ, stall)
    requires forall k :: i < k < j ==> ops[k] != Release(key, ops[k].now)
    ensures !(Wins(ops, i) && Wins(ops, j))
  {
    if Wins(ops, i) {
      assert ops[j].now < ops[i].now + NONCE_CLAIM_SECONDS * 1000;
      ClaimStands(ops, i, j);
    }
  }

  /** Two sign-ins with one nonce that both get past their claims. */
  ghost predicate SignsInTwice(ops: seq<Op>, issued: nat, checkedI: nat, checkedJ: nat, stall: nat) {
    && |ops| == 2 && InOrder(ops)
    && IsSignIn(ops, 0, "nonce:a", issued, checkedI, stall) && IsSignIn(ops, 1, "nonce:a", issued, checkedJ, stall)
    && Wins(ops, 0) && Wins(ops, 1)
  }

  /** The minute is exact: a longer stall lets one nonce sign in twice, and none up to a minute does. */
  lemma AMinuteIsExact(stall: nat)
    ensures stall <= 60_000 <==> !exists ops, issued, checkedI, checkedJ :: SignsInTwice(ops, issued, checkedI, checkedJ, stall)
  {
    if stall <= 60_000 {
      forall ops, issued, checkedI, checkedJ | SignsInTwice(ops, issued, checkedI, checkedJ, stall) ensures false {
        NonceSignsInOnce(ops, 0, 1, "nonce:a", issued, checkedI, checkedJ, stall);
      }
    } else {
      var ops := [Claim("nonce:a", Some(360), 0), Claim("nonce:a", Some(360), 360_000)];
      assert ClaimsAfter(ops, 0) == map[];
      assert ClaimsAfter(ops, 1) == map["nonce:a" := At(360_000)];
      assert SignsInTwice(ops, 0, 0, 299_999, stall);
    }
  }

  /** How long a sign-out at `now` keeps a cookie that expires at `exp` seconds revoked. */
  function SignOutTtl(exp: nat, now: nat): nat {
    if exp > Seconds(now) then exp - Seconds(now) else 1
  }

  /** `decodeSession` accepts the (authentic) cookie at `checked`. */
  predicate SessionAccepted(exp: nat, checked: nat) {
    exp > Seconds(checked)
  }

  /** The time, in milliseconds, until which a sign-out recorded at `now` answers. */
  function RevokedUntil(exp: nat, now: nat): nat {
    now + SignOutTtl(exp, now) * 1000
  }

  /** A sign-out answers at least until the cookie itself has expired, although it is counted in other units. */
  lemma SignOutOutlivesTheCookie(exp: nat, now: nat, later: nat)
    requires SessionAccepted(exp, later) && now <= later
    ensures later < RevokedUntil(exp, now)
  {
  }

  /** To the second: it answers until the cookie's expiry, or for one second where that has passed. */
  lemma SignOutLength(exp: nat, now: nat)
    ensures if exp > Seconds(now) then exp * 1000 <= RevokedUntil(exp, now) < exp * 1000 + 1000 else RevokedUntil(exp, now) == now + 1000
  {
  }

  /** A request presents the cookie: it decodes at `checked` and is accepted when the store, asked by call `j`, knows no sign-out. */
  ghost predicate Accepts(ops: seq<Op>, j: nat, key: string, exp: nat, checked: nat)
    requires j < |ops|
  {
    ops[j] == Has(key, ops[j].now) && checked <= ops[j].now && SessionAccepted(exp, checked) && !FindsClaimed(ops, j)
  }

  /** Call `i` records the sign-out of a cookie that expires at `exp`. */
  ghost predicate SignsOut(ops: seq<Op>, i: nat, key: string, exp: nat)
    requires i < |ops|
  {
    ops[i] == Claim(key, Some(SignOutTtl(exp, ops[i].now)), ops[i].now) && Wins(ops, i)
  }

  /** The only calls on a session's key are questions and sign-outs, any number of each. */
  ghost predicate OnlySignOuts(ops: seq<Op>, n: nat, key: string, exp: nat)
    requires n <= |ops|
  {
    forall k :: 0 <= k < n && ops[k].key == key ==> ops[k].Has? || ops[k] == Claim(key, Some(SignOutTtl(exp, ops[k].now)), ops[k].now)
  }

  /** The record of a session is that of its last granted sign-out, which ends no earlier than any before it. */
  ghost predicate LastRecord(ops: seq<Op>, n: nat, key: string, exp: nat)
    requires n <= |ops|
  {
    var claims := ClaimsAfter(ops, n);
    && (key !in claims ==> forall i :: 0 <= i < n ==> !SignsOut(ops, i, key, exp))
    && (key in claims ==>
          && claims[key].At?
          && (exists i :: 0 <= i < n && SignsOut(ops, i, key, exp) && claims[key].ms == RevokedUntil(exp, ops[i].now))
          && forall i :: 0 <= i < n && SignsOut(ops, i, key, exp) ==> RevokedUntil(exp, ops[i].now) <= claims[key].ms)
  }

  lemma {:induction false} RecordIsTheLast(ops: seq<Op>, n: nat, key: string, exp: nat)
    requires InOrder(ops) && n <= |ops| && OnlySignOuts(ops, n, key, exp)
    ensures LastRecord(ops, n, key, exp)
  {
    if n > 0 {
      RecordIsTheLast(ops, n - 1, key, exp);
      var before, after := ClaimsAfter(ops, n - 1), ClaimsAfter(ops, n);
      if SignsOut(ops, n - 1, key, exp) {
        assert after[key] == At(RevokedUntil(exp, ops[n - 1].now));
      } else {
        assert key in after <==> key in before;
        assert key in after ==> after[key] == before[key];
      }
    }
  }

  /**
   * However often a session is signed out, a copy of its cookie is accepted exactly by a request that decoded it in time but
   * asked the store only once every recorded sign-out had ended, which is after the cookie itself has expired.
   */
  lemma SignedOutStaysOut(ops: seq<Op>, j: nat, key: string, exp: nat, checked: nat)
    requires InOrder(ops) && j < |ops| && OnlySignOuts(ops, j, key, exp)
    requires ops[j] == Has(key, ops[j].now) && checked <= ops[j].now && SessionAccepted(exp, checked)
    ensures Accepts(ops, j, key, exp, checked) <==>
            forall i :: 0 <= i < j && SignsOut(ops, i, key, exp) ==> RevokedUntil(exp, ops[i].now) <= ops[j].now
    ensures Accepts(ops, j, key, exp, checked) && (exists i :: 0 <= i < j && SignsOut(ops, i, key, exp)) ==>
              !SessionAccepted(exp, ops[j].now)
  {
    RecordIsTheLast(ops, j, key, exp);
    forall i | 0 <= i < j && SignsOut(ops, i, key, exp) && RevokedUntil(exp, ops[i].now) <= ops[j].now
      ensures !SessionAccepted(exp, ops[j].now)
    {
      assert ops[i].now <= ops[j].now;
      if SessionAccepted(exp, ops[j].now) {
        SignOutOutlivesTheCookie(exp, ops[i].now, ops[j].now);
      }
    }
  }

  /** It happens: a cookie good for a hundred seconds, signed out at once, is accepted when its last millisecond is decoded. */
  lemma SignedOutCookieGetsIn()
    ensures var ops := [Claim("signout:a", Some(SignOutTtl(100, 0)), 0), Has("signout:a", 100_000)];
            InOrder(ops) && SignsOut(ops, 0, "signout:a", 100) && Accepts(ops, 1, "signout:a", 100, 99_999)
  {
    var ops := [Claim("signout:a", Some(SignOutTtl(100, 0)), 0), Has("signout:a", 100_000)];
    assert ClaimsAfter(ops, 0) == map[];
    assert ClaimsAfter(ops, 1) == map["signout:a" := At(100_000)];
  }

  /** Even if others sign the same session out again, a request that asks the store while the cookie is valid is refused. */
  lemma NoValidCopyAfterSignOut(ops: seq<Op>, i: nat, j: nat, key: string, exp: nat)
    requires InOrder(ops) && i < j < |ops| && SignsOut(ops, i, key, exp)
    requires forall k :: i < k < j ==> ops[k] != Release(key, ops[k].now)
    ensures !Accepts(ops, j, key, exp, ops[j].now)
  {
    if SessionAccepted(exp, ops[j].now) {
      SignOutOutlivesTheCookie(exp, ops[i].now, ops[j].now);
      ClaimStands(ops, i, j);
    }
  }
}
