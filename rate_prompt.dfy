/**
 * The App Store review prompt throttle (`RatePromptManager`): at most one
 * prompt per day. Dates are whole seconds; the persisted last-prompt date is
 * the `lastPrompt` field.
 */
module RatePrompt {
  import opened Wrappers

  /** One day, in seconds. */
  const MinInterval: int := 60 * 60 * 24

  /** Whether a prompt may be shown at `now`: never prompted, or more than a day ago. */
  function CanPromptAt(lastPrompt: Option<int>, now: int): (r: bool)
    ensures lastPrompt == None ==> r
    ensures lastPrompt != None ==> (r <==> now - lastPrompt.value > 86400)
  {
    match lastPrompt
    case None => true
    case Some(last) => now - last > MinInterval
  }

  /** Right after a prompt, another one is refused until more than a day has passed. */
  lemma PromptSuppressesForADay(t: int, now: int)
    requires t <= now <= t + MinInterval
    ensures !CanPromptAt(Some(t), now)
    ensures CanPromptAt(Some(t), t + MinInterval + 1)
  {
  }

  class RatePromptManager {
    var lastPrompt: Option<int>
    /** How many times the system review prompt was requested. */
    var prompts: nat

    constructor (stored: Option<int>)
      ensures lastPrompt == stored && prompts == 0
    {
      lastPrompt, prompts := stored, 0;
    }

    function CanPrompt(now: int): bool
      reads this
    {
      CanPromptAt(lastPrompt, now)
    }

    /**
     * Prompts, and records `now`, only when allowed and a foreground-active
     * scene exists; otherwise nothing changes.
     */
    method RequestReviewIfAllowed(now: int, hasForegroundScene: bool)
      modifies this
      ensures CanPromptAt(old(lastPrompt), now) && hasForegroundScene ==>
        lastPrompt == Some(now) && prompts == old(prompts) + 1
      ensures !(CanPromptAt(old(lastPrompt), now) && hasForegroundScene) ==>
        lastPrompt == old(lastPrompt) && prompts == old(prompts)
      ensures !CanPrompt(now)
        || (lastPrompt == old(lastPrompt) && prompts == old(prompts))
    {
      if !CanPrompt(now) {
        return;
      }
      if hasForegroundScene {
        prompts := prompts + 1;
        UpdateLastPrompt(now);
      }
    }

    method UpdateLastPrompt(now: int)
      modifies this`lastPrompt
      ensures lastPrompt == Some(now)
    {
      lastPrompt := Some(now);
    }
  }
}
