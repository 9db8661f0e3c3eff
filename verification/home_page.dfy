/**
 * The landing page (app/page.tsx): the logo easter egg that counts clicks up
 * to 69 and then fires confetti, its progress label, and the redirect of a
 * signed-in visitor to the dashboard.
 */
module HomePage {
  import opened Common
  import opened Text

  /** The click count that fires the confetti. */
  const Goal: nat := 69

  /** The count after one click on the logo, starting from `count`. */
  function Step(count: nat): nat {
    if count + 1 == Goal then 0 else count + 1
  }

  /** The count after `n` clicks on a freshly loaded page. */
  function CountAfter(n: nat): nat {
    if n == 0 then 0 else Step(CountAfter(n - 1))
  }

  /** The count goes round the cycle 0, 1, …, 68: after `n` clicks it is `n mod 69`,
      so it never leaves 0..68. */
  lemma {:induction false} CountAfterIsMod(n: nat)
    ensures CountAfter(n) == n % Goal
    ensures CountAfter(n) < Goal
  {
    if n > 0 {
      CountAfterIsMod(n - 1);
      ModSucc(n - 1);
    }
  }

  /** Adding one to a number moves its remainder one step round the cycle. */
  lemma ModSucc(m: nat)
    ensures (m + 1) % Goal == Step(m % Goal)
  {
    var q, c := m / Goal, m % Goal;
    if c + 1 == Goal {
      assert m + 1 == (q + 1) * Goal;
    } else {
      assert m + 1 == q * Goal + (c + 1);
    }
  }

  /** The confetti fires on the clicks numbered 69, 138, …: exactly when the count wraps. */
  lemma ConfettiClicks(n: nat)
    requires n > 0
    ensures CountAfter(n) == 0 <==> n % Goal == 0
    ensures CountAfter(n - 1) + 1 == Goal <==> n % Goal == 0
  {
    CountAfterIsMod(n);
    CountAfterIsMod(n - 1);
  }

  /** The line shown under the logo while a count is under way: "Keep clicking! (n/69)". */
  function ProgressLabel(count: nat): (r: Option<string>)
    ensures r.Some? <==> count > 0
  {
    if count > 0 then Some("Keep clicking! (" + NatToString(count) + "/69)") else None
  }

  /** The label carries the current count between the parenthesis and the slash. */
  lemma ProgressLabelCount(count: nat)
    requires count > 0
    ensures var s := ProgressLabel(count).value;
      var k := |NatToString(count)|;
      |s| == 20 + k && ParseNat(s[16..16 + k]) == Some(count) && s[16 + k..] == "/69)"
  {
    var s := ProgressLabel(count).value;
    var k := |NatToString(count)|;
    assert s[16..16 + k] == NatToString(count);
    ParseNatToString(count);
  }

  class LandingPage {
    var easterEggCount: nat
    var showConfetti: bool
    /** Where the router was sent, if anywhere. */
    var route: Option<string>

    predicate Valid()
      reads this
    {
      easterEggCount < Goal
    }

    constructor ()
      ensures easterEggCount == 0 && !showConfetti && route == None && Valid()
    {
      easterEggCount := 0;
      showConfetti := false;
      route := None;
    }

    /** `handleEasterEgg`: the 69th click turns the confetti on and resets the count, the
        later reset overriding the increment; any other click adds one. */
    method HandleEasterEgg()
      modifies this`easterEggCount, this`showConfetti
      ensures easterEggCount == Step(old(easterEggCount))
      ensures old(easterEggCount) + 1 == Goal ==> easterEggCount == 0 && showConfetti
      ensures old(easterEggCount) + 1 != Goal ==>
                easterEggCount == old(easterEggCount) + 1 && showConfetti == old(showConfetti)
      ensures old(Valid()) ==> Valid()
    {
      var newCount := easterEggCount + 1;
      easterEggCount := newCount;
      if newCount == Goal {
        showConfetti := true;
        easterEggCount := 0;
      }
    }

    /** The confetti's `onComplete`. */
    method ConfettiComplete()
      modifies this`showConfetti
      ensures !showConfetti
    {
      showConfetti := false;
    }

    /** The effect on the auth state: a signed-in visitor, once loading is over, is sent to the
        dashboard; otherwise the page stays. */
    method OnAuthChange(loading: bool, isAuthenticated: bool)
      modifies this`route
      ensures !loading && isAuthenticated ==> route == Some("/dashboard")
      ensures loading || !isAuthenticated ==> route == old(route)
    {
      if !loading && isAuthenticated {
        route := Some("/dashboard");
      }
    }
  }
}
