/** `MilvusHealthState`: the outcome of a health probe and its text form. */
module HealthState {
  import opened Common
  import opened Text

  /** Get-only properties set once by the constructor; the message may be null. */
  datatype MilvusHealthState = MilvusHealthState(isHealthy: bool, errorMsg: Option<string>, errorCode: ErrorCode)

  function Create(isHealthy: bool, errorMsg: Option<string>, errorCode: ErrorCode): (h: MilvusHealthState)
    ensures h.isHealthy == isHealthy && h.errorMsg == errorMsg && h.errorCode == errorCode
  {
    MilvusHealthState(isHealthy, errorMsg, errorCode)
  }

  /** `{IsHealthy:True}` when healthy; otherwise the flag, the code and the message. */
  function ToString(h: MilvusHealthState): (s: string)
    ensures h.isHealthy ==> s == "{IsHealthy:True}"
    ensures !h.isHealthy ==>
      s == "{IsHealthy:False}" + ", {ErrorCode:" + h.errorCode.name + "}, {ErrorMsg:" + Interpolate(h.errorMsg) + "}"
  {
    var state := "{IsHealthy:" + BoolText(h.isHealthy) + "}";
    assert state == if h.isHealthy then "{IsHealthy:True}" else "{IsHealthy:False}";
    if !h.isHealthy then
      state + ", {ErrorCode:" + h.errorCode.name + "}, {ErrorMsg:" + Interpolate(h.errorMsg) + "}"
    else
      state
  }

  /** A healthy state's text says nothing of its code or message. */
  lemma HealthyHidesError(a: MilvusHealthState, b: MilvusHealthState)
    requires a.isHealthy && b.isHealthy
    ensures ToString(a) == ToString(b)
  {
  }

  /** The text tells healthy from unhealthy: the flag sits at a fixed place. */
  lemma FlagIsReadable(h: MilvusHealthState)
    ensures |ToString(h)| >= 16
    ensures ToString(h)[11] == 'T' <==> h.isHealthy
  {
  }

  /** An unhealthy state's code and message can be read back from its text. */
  lemma ErrorIsReadable(h: MilvusHealthState)
    requires !h.isHealthy
    ensures var s := ToString(h);
      var c := |"{IsHealthy:False}, {ErrorCode:"|;
      var m := Interpolate(h.errorMsg);
      |s| == c + |h.errorCode.name| + |"}, {ErrorMsg:"| + |m| + 1
      && s[c..c + |h.errorCode.name|] == h.errorCode.name
      && s[|s| - 1 - |m|..|s| - 1] == m
  {
  }
}
