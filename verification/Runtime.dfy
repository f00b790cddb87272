/** The settings an administrator changes while the server runs. */
module Runtime {
  import opened ByteStrings
  import opened Wrappers

  /** The settings as a value. */
  datatype State = State(dcsMode: string, cacheLevel: nat) {
    /** `Set`: what is absent stays, an empty mode means "on", a negative level means 0. */
    function Updated(mode: Option<Bytes>, level: Option<int>): State {
      State(if mode.None? then dcsMode else CleanMode(mode.value),
            if level.None? then cacheLevel else CleanLevel(level.value))
    }
  }

  function CleanMode(mode: Bytes): string {
    var m := ToLower(TrimSpace(mode));
    if m == "" then "on" else m
  }

  function CleanLevel(level: int): nat {
    if level < 0 then 0 else level
  }

  /** A mode in lower-case letters is kept as it is. */
  lemma CleanModeFixed(mode: Bytes)
    requires mode != [] && forall i :: 0 <= i < |mode| ==> 'a' <= mode[i] <= 'z'
    ensures CleanMode(mode) == mode
  {
    TrimSpaceFixed(mode);
    assert ToLower(mode) == mode;
  }

  predicate Enabled(mode: string) {
    mode != "off" && mode != "false" && mode != "0" && mode != "no"
  }

  /** Any mode but four switches DCS on, and a mode of white space alone is "on". */
  lemma ModesAre(mode: Bytes)
    ensures Enabled(mode) <==> mode !in {"off", "false", "0", "no"}
    ensures (forall i :: 0 <= i < |mode| ==> IsSpace(mode[i])) ==> CleanMode(mode) == "on"
    ensures TrimSpace(mode) != [] ==> SameButCase(CleanMode(mode), TrimSpace(mode))
  {
    if forall i :: 0 <= i < |mode| ==> IsSpace(mode[i]) {
      AllSpaceTrims(mode);
    }
    LowerIsSame(TrimSpace(mode));
  }

  lemma LowerIsSame(s: Bytes)
    ensures SameButCase(ToLower(s), s) && (s != [] ==> ToLower(s) != "")
  {
  }

  /** A level below zero counts as zero, any other as itself. */
  lemma LevelsAre(level: int)
    ensures CleanLevel(level) as int >= level && (CleanLevel(level) == 0 || CleanLevel(level) as int == level)
  {
  }

  lemma {:induction false} AllSpaceTrims(s: Bytes)
    requires forall i :: 0 <= i < |s| ==> IsSpace(s[i])
    ensures TrimLeft(s) == []
  {
    if s != [] { AllSpaceTrims(s[1..]); }
  }

  class Settings {
    var dcsMode: string
    var cacheLevel: nat

    function Value(): State
      reads this
    {
      State(dcsMode, cacheLevel)
    }

    predicate DcsEnabled()
      reads this
    {
      Enabled(dcsMode)
    }

    constructor (defaultMode: Bytes, defaultCacheLevel: int)
      ensures Value() == State(CleanMode(defaultMode), CleanLevel(defaultCacheLevel))
    {
      dcsMode := CleanMode(defaultMode);
      cacheLevel := CleanLevel(defaultCacheLevel);
    }

    method Set(mode: Option<Bytes>, level: Option<int>)
      modifies this
      ensures Value() == old(Value()).Updated(mode, level)
    {
      if mode.Some? {
        var m := ToLower(TrimSpace(mode.value));
        if m == "" { m := "on"; }
        dcsMode := m;
      }
      if level.Some? {
        if level.value < 0 { cacheLevel := 0; } else { cacheLevel := level.value; }
      }
    }
  }
}
