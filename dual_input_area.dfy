/**
 * The two-field submission form (components/DualInputArea.tsx): the topic
 * and perspective fields, the submit guard, the reset after a submission,
 * the Cmd+Enter shortcut and the submit button's enabled state.
 *
 * `onSend` is not called from here: a submission returns the pair it would
 * pass to `onSend`, or None when nothing is sent.
 */
module DualInputArea {
  import opened Wrappers

  /**
   * The characters `String.prototype.trim` removes: ECMAScript's WhiteSpace
   * (tab, vertical tab, form feed, space, no-break space, byte order mark and
   * the Unicode space separators) and LineTerminator characters.
   */
  predicate IsWhitespace(c: char) {
    c == '\t' || c == '\n' || c == '\r' || c == ' ' ||
    c == '\U{000B}' || c == '\U{000C}' || c == '\U{00A0}' || c == '\U{1680}' ||
    ('\U{2000}' <= c <= '\U{200A}') ||
    c == '\U{2028}' || c == '\U{2029}' || c == '\U{202F}' || c == '\U{205F}' ||
    c == '\U{3000}' || c == '\U{FEFF}'
  }

  /** Every character is whitespace (the empty string included). */
  predicate IsBlank(s: string) {
    forall i :: 0 <= i < |s| ==> IsWhitespace(s[i])
  }

  /** Drops leading whitespace. */
  function TrimStart(s: string): (r: string)
    ensures |r| <= |s| && r == s[|s| - |r|..]
    ensures IsBlank(s[..|s| - |r|])
    ensures r == "" || !IsWhitespace(r[0])
  {
    if |s| > 0 && IsWhitespace(s[0]) then
      var r := TrimStart(s[1..]);
      assert s[..|s| - |r|] == [s[0]] + s[1..][..|s| - 1 - |r|];
      r
    else s
  }

  /** Drops trailing whitespace. */
  function TrimEnd(s: string): (r: string)
    ensures |r| <= |s| && r == s[..|r|]
    ensures IsBlank(s[|r|..])
    ensures r == "" || !IsWhitespace(r[|r| - 1])
  {
    if |s| > 0 && IsWhitespace(s[|s| - 1]) then
      var r := TrimEnd(s[..|s| - 1]);
      assert s[|r|..] == s[..|s| - 1][|r|..] + [s[|s| - 1]];
      r
    else s
  }

  /** `s.trim()`: neither starts nor ends with whitespace (see `TrimIsInnerSlice` for what it keeps). */
  function Trim(s: string): (r: string)
    ensures |r| <= |s|
    ensures r == "" || (!IsWhitespace(r[0]) && !IsWhitespace(r[|r| - 1]))
  {
    var a := TrimStart(s);
    var r := TrimEnd(a);
    assert r != "" ==> r[0] == a[0];
    r
  }

  /** What `trim` keeps: the piece of `s` between a blank prefix and a blank suffix. */
  lemma TrimIsInnerSlice(s: string)
    ensures exists k :: 0 <= k <= |s| - |Trim(s)| && s[k..k + |Trim(s)|] == Trim(s) &&
                        IsBlank(s[..k]) && IsBlank(s[k + |Trim(s)|..])
  {
    var a := TrimStart(s);
    var r := TrimEnd(a);
    var k := |s| - |a|;
    assert a == s[k..] && r == a[..|r|];
    assert s[k..k + |r|] == a[..|r|];
    assert s[k + |r|..] == a[|r|..];
  }

  lemma BlankAppend(a: string, b: string)
    requires IsBlank(a) && IsBlank(b)
    ensures IsBlank(a + b)
  {
    forall i | 0 <= i < |a + b| ensures IsWhitespace((a + b)[i]) {
      if i < |a| { assert (a + b)[i] == a[i]; } else { assert (a + b)[i] == b[i - |a|]; }
    }
  }

  /** A field's trimmed value is truthy exactly when the field holds a non-whitespace character. */
  lemma TrimEmptyIffBlank(s: string)
    ensures Trim(s) == "" <==> IsBlank(s)
  {
    var a := TrimStart(s);
    var k := |s| - |a|;
    var r := TrimEnd(a);
    assert Trim(s) == r;
    if r == "" {
      assert a[|r|..] == a;
      assert s == s[..k] + a;
      BlankAppend(s[..k], a);
    } else {
      assert a == s[k..] && r == a[..|r|];
      assert !IsWhitespace(s[k]);
    }
  }

  /**
   * `topic.trim() && perspective.trim() && !isLoading`, the guard of
   * `handleSubmit`: both fields hold a non-whitespace character and no reply
   * is awaited.
   */
  predicate CanSubmit(topic: string, perspective: string, isLoading: bool)
    ensures CanSubmit(topic, perspective, isLoading) <==> !IsBlank(topic) && !IsBlank(perspective) && !isLoading
  {
    TrimEmptyIffBlank(topic);
    TrimEmptyIffBlank(perspective);
    Trim(topic) != "" && Trim(perspective) != "" && !isLoading
  }

  /** The pair passed to `onSend`. */
  datatype Submission = Submission(topic: string, perspective: string)

  class InputForm {
    var topic: string
    var perspective: string

    /** Both fields start empty. */
    constructor ()
      ensures topic == "" && perspective == ""
    {
      topic, perspective := "", "";
    }

    /** The topic field's change handler. */
    method SetTopic(value: string)
      modifies this
      ensures topic == value && perspective == old(perspective)
    {
      topic := value;
    }

    /** The perspective field's change handler. */
    method SetPerspective(value: string)
      modifies this
      ensures perspective == value && topic == old(topic)
    {
      perspective := value;
    }

    /**
     * `handleSubmit`: when the guard holds, send the untrimmed fields and
     * clear both; otherwise send nothing and change nothing.
     */
    method Submit(isLoading: bool) returns (sent: Option<Submission>)
      modifies this
      ensures sent.Some? <==> CanSubmit(old(topic), old(perspective), isLoading)
      ensures sent.Some? ==> sent.value == Submission(old(topic), old(perspective)) && topic == "" && perspective == ""
      ensures sent.None? ==> topic == old(topic) && perspective == old(perspective)
    {
      if CanSubmit(topic, perspective, isLoading) {
        sent := Some(Submission(topic, perspective));
        topic := "";
        perspective := "";
      } else {
        sent := None;
      }
    }

    /** `handleKeyDown`: Enter with the meta key held submits through the same guard; any other key does nothing. */
    method KeyDown(key: string, metaKey: bool, isLoading: bool) returns (sent: Option<Submission>)
      modifies this
      ensures key == "Enter" && metaKey ==>
        (sent.Some? <==> CanSubmit(old(topic), old(perspective), isLoading))
      ensures sent.Some? ==>
        key == "Enter" && metaKey && sent.value == Submission(old(topic), old(perspective)) && topic == "" && perspective == ""
      ensures sent.None? ==> topic == old(topic) && perspective == old(perspective)
    {
      if key == "Enter" && metaKey {
        sent := Submit(isLoading);
      } else {
        sent := None;
      }
    }

    /** The submit button's `disabled` attribute. */
    function SubmitDisabled(isLoading: bool): (disabled: bool)
      reads this
      ensures !disabled <==> CanSubmit(topic, perspective, isLoading)
    {
      Trim(topic) == "" || Trim(perspective) == "" || isLoading
    }
  }
}
