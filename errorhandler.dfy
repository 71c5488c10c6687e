/** The error handler that collects PHP warnings while a shell command runs. */
module ErrorHandling {
  import opened Php

  /** The text the pattern `^file_get_contents\(.*?\): ` starts with. */
  const CallPrefix: string := "file_get_contents("

  /** The pattern matches `m` with `i` characters between the opening parenthesis and
      the closing "): " (`.` does not match a newline). */
  predicate MatchesAt(m: string, i: nat) {
    var at := |CallPrefix| + i;
    StartsWith(m, CallPrefix) && at + 3 <= |m| && m[at..at + 3] == "): "
    && forall k :: |CallPrefix| <= k < at ==> m[k] != '\n'
  }

  /** `preg_replace('{^file_get_contents\(.*?\): }', '', $m)`: the shortest match at the
      start of `m` is removed; without a match `m` is unchanged. */
  function StripCallPrefix(m: string): string {
    if StartsWith(m, CallPrefix) then StripFrom(m, 0) else m
  }

  /** Without a match the message is kept; otherwise what follows the shortest match. */
  lemma StripCallPrefixRemovesShortestMatch(m: string)
    ensures (forall i: nat :: !MatchesAt(m, i)) ==> StripCallPrefix(m) == m
    ensures forall i: nat :: MatchesAt(m, i) && (forall j: nat :: j < i ==> !MatchesAt(m, j)) ==>
              StripCallPrefix(m) == m[|CallPrefix| + i + 3..]
  {
  }

  /** A message that does not start with the call prefix is kept as it is. */
  lemma StripCallPrefixKeepsOthers(m: string)
    requires !StartsWith(m, CallPrefix)
    ensures StripCallPrefix(m) == m
  {
  }

  /** The search for the shortest match, having ruled out the lengths below `i`. */
  function StripFrom(m: string, i: nat): (r: string)
    requires StartsWith(m, CallPrefix) && |CallPrefix| + i <= |m|
    requires forall k :: |CallPrefix| <= k < |CallPrefix| + i ==> m[k] != '\n'
    ensures (forall j: nat :: i <= j ==> !MatchesAt(m, j)) ==> r == m
    ensures forall j: nat :: i <= j && MatchesAt(m, j) && (forall l: nat :: i <= l < j ==> !MatchesAt(m, l)) ==>
              r == m[|CallPrefix| + j + 3..]
    decreases |m| - i
  {
    var at := |CallPrefix| + i;
    if at + 3 > |m| then
      m
    else if m[at..at + 3] == "): " then
      assert MatchesAt(m, i);
      m[at + 3..]
    else if m[at] == '\n' then
      m
    else
      StripFrom(m, i + 1)
  }

  /** `ErrorHandler`: while active, PHP warnings are appended to `message`, one per line. */
  class ErrorHandler {
    var message: string
    var active: bool
    /** How often this handler has been pushed onto PHP's handler stack
        (`set_error_handler`) minus how often it was popped (`restore_error_handler`). */
    ghost var installed: int

    constructor ()
      ensures message == "" && !active && installed == 0
    {
      message, active, installed := "", false, 0;
    }

    /** `handleError($msg)`: a newline first when something is already collected, then
        the message without a leading `file_get_contents(...): `. */
    method HandleError(msg: string)
      modifies this
      ensures message == old(message) + (if Truthy(old(message)) then "\n" else "") + StripCallPrefix(msg)
      ensures active == old(active) && installed == old(installed)
    {
      if Truthy(message) {
        message := message + "\n";
      }
      message := message + StripCallPrefix(msg);
    }

    /** `start()`: registers the handler unless it is already active, and clears the
        message in either case. */
    method Start()
      modifies this
      ensures active && message == ""
      ensures installed == old(installed) + (if old(active) then 0 else 1)
    {
      if !active {
        installed := installed + 1;
        active := true;
      }
      message := "";
    }

    /** `stop()`: unregisters an active handler; the message is kept until the next
        `start()`. */
    method Stop()
      modifies this
      ensures !active && message == old(message)
      ensures installed == old(installed) - (if old(active) then 1 else 0)
    {
      if active {
        installed := installed - 1;
        active := false;
      }
    }
  }
}
