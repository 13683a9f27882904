/**
 The access guard run before every handler: onboarding commands and
 messages sent during profile setup always go through; anything else needs
 a stored profile.
 */
module Middlewares {
  import opened Wrappers
  import opened States

  /** The commands allowed without a profile, matched as text prefixes. */
  const AllowedCommands: seq<string> := ["/set_profile", "/start", "/help"]

  /** `any(text.startswith(cmd) for cmd in prefixes)`. */
  function StartsWithAny(text: string, prefixes: seq<string>): (b: bool)
    decreases |prefixes|
  {
    |prefixes| > 0 && (StartsWith(text, prefixes[0]) || StartsWithAny(text, prefixes[1..]))
  }

  /** The recursive prefix test agrees with its reading as "some prefix matches". */
  lemma {:induction false} StartsWithAnyMeans(text: string, prefixes: seq<string>)
    ensures StartsWithAny(text, prefixes) <==> exists i :: 0 <= i < |prefixes| && StartsWith(text, prefixes[i])
    decreases |prefixes|
  {
    if |prefixes| > 0 {
      StartsWithAnyMeans(text, prefixes[1..]);
      if StartsWithAny(text, prefixes[1..]) {
        var i :| 0 <= i < |prefixes[1..]| && StartsWith(text, prefixes[1..][i]);
        assert StartsWith(text, prefixes[i + 1]);
      }
      if exists i :: 0 <= i < |prefixes| && StartsWith(text, prefixes[i]) {
        var i :| 0 <= i < |prefixes| && StartsWith(text, prefixes[i]);
        if i > 0 {
          assert prefixes[1..][i - 1] == prefixes[i];
        }
      }
    }
  }

  /**
   `CheckCommandMiddleware`: whether a message reaches its handler. `raw` is
   the stored state name. The source's test of the state object against the
   `ProfileSetup` class never holds (the object is the FSM context), so only
   the raw name decides the setup case.
   */
  predicate Admits(text: string, raw: Option<string>, hasProfile: bool)
  {
    || (text != "" && StartsWithAny(text, AllowedCommands))
    || (raw.Some? && StartsWith(raw.value, "ProfileSetup"))
    || hasProfile
  }

  /** Text beginning with one of the three onboarding commands always passes, with or without a profile. */
  lemma OnboardingPasses(text: string, raw: Option<string>, hasProfile: bool)
    requires StartsWith(text, "/set_profile") || StartsWith(text, "/start") || StartsWith(text, "/help")
    ensures Admits(text, raw, hasProfile)
  {
    assert AllowedCommands[0] == "/set_profile" && AllowedCommands[1] == "/start" && AllowedCommands[2] == "/help";
    StartsWithAnyMeans(text, AllowedCommands);
  }

  /** The test is a prefix test: `/helpme` passes as `/help` does. */
  lemma PrefixNotWholeCommand()
    ensures Admits("/helpme", None, false)
  {
    assert "/helpme"[..5] == "/help";
    OnboardingPasses("/helpme", None, false);
  }

  /** Every message sent during profile setup passes, whether or not a profile exists. */
  lemma SetupPasses(text: string, phase: Phase, hasProfile: bool)
    requires phase.ProfileSetup?
    ensures Admits(text, RawState(phase), hasProfile)
  {
    RawStateSetupPrefix(phase);
  }

  /** Outside setup, a message is blocked exactly when it is no onboarding command and there is no profile. */
  lemma BlockedExactly(text: string, phase: Phase, hasProfile: bool)
    requires !phase.ProfileSetup?
    ensures !Admits(text, RawState(phase), hasProfile) <==>
            !hasProfile && !(exists i :: 0 <= i < |AllowedCommands| && StartsWith(text, AllowedCommands[i]))
  {
    RawStateSetupPrefix(phase);
    StartsWithAnyMeans(text, AllowedCommands);
    if text == "" {
      forall i | 0 <= i < |AllowedCommands|
        ensures !StartsWith(text, AllowedCommands[i])
      {
        assert |AllowedCommands[i]| > 0;
      }
    }
  }
}
