/** src/Utils/msg.py: the reply texts of the current iteration. */
module Msg {
  import opened Wrappers
  import opened Text

  const DevMark: string := "\U{26A0}\U{FE0F} [DEV]"
  const CrossMark: string := "\U{274C}"
  const CheckMark: string := "\U{2705}"
  const Fence: string := "```"

  /** `str(error)` */
  function ErrorText(e: Error): string {
    e.msg
  }

  /** An exception object is always truthy; only `None` is not. */
  function ErrorBlock(error: Option<Error>): string {
    if error.Some? then Fence + ErrorText(error.value) + Fence else ""
  }

  function ErrorPrefix(error: Option<Error>): (p: string)
    ensures p == DevMark || p == CrossMark
  {
    if error.Some? && error.value.CodeError? then DevMark else CrossMark
  }

  /** `error_msg(msg, error=None)` */
  function ErrorMsg(msg: string, error: Option<Error> := None): (r: string)
    ensures IsPrefix(ErrorPrefix(error) + " Fehler: " + msg + " ", r)
    ensures var k := |ErrorPrefix(error) + " Fehler: " + msg + " "|;
            (error.None? ==> |r| == k)
            && (error.Some? ==> r[k..] == Fence + ErrorText(error.value) + Fence)
    ensures r[|r| - 1] == '`' <==> error.Some?
  {
    var p := ErrorPrefix(error) + " Fehler: " + msg + " ";
    var r := p + ErrorBlock(error);
    assert r[..|p|] == p;
    r
  }

  /** The developer mark opens the reply exactly for a `CodeError`; every
      other reply opens with the cross mark. */
  lemma ErrorMsgMark(msg: string, error: Option<Error>)
    ensures IsPrefix(DevMark, ErrorMsg(msg, error)) <==> error.Some? && error.value.CodeError?
    ensures IsPrefix(CrossMark, ErrorMsg(msg, error)) <==> !(error.Some? && error.value.CodeError?)
  {
    var r := ErrorMsg(msg, error);
    var p := ErrorPrefix(error);
    assert r[..|p|] == p by {
      assert IsPrefix(p + " Fehler: " + msg + " ", r);
      assert (p + " Fehler: " + msg + " ")[..|p|] == p;
    }
    assert r[0] == p[0];
  }

  /** `success_msg(msg)`; src/Utils/environment.py `success_response`,
      Utils/msg.py and utils.py `success_msg` build the same text. */
  function SuccessMsg(msg: string): (r: string)
    ensures IsPrefix(CheckMark + " ", r) && r[|CheckMark| + 1..] == msg
  {
    CheckMark + " " + msg
  }

  /** A success reply is never mistaken for an error reply. */
  lemma SuccessIsNotError(m: string, m': string, error: Option<Error>)
    ensures SuccessMsg(m) != ErrorMsg(m', error)
  {
    var s := SuccessMsg(m);
    var e := ErrorMsg(m', error);
    assert s[0] == CheckMark[0];
    assert e[0] == DevMark[0] || e[0] == CrossMark[0];
  }
}

/** Utils/msg.py: the earlier `error_msg`, whose prefix follows a flag. */
module LegacyMsg {
  import opened Wrappers
  import opened Text
  import Msg

  function ErrorPrefix(codeIssue: bool): (p: string)
    ensures p == Msg.DevMark || p == Msg.CrossMark
  {
    if codeIssue then Msg.DevMark else Msg.CrossMark
  }

  /** `error_msg(msg, error=None, code_issue=True)` */
  function ErrorMsg(msg: string, error: Option<Error> := None, codeIssue: bool := true): (r: string)
    ensures IsPrefix(ErrorPrefix(codeIssue) + " Fehler: " + msg + " ", r)
    ensures var k := |ErrorPrefix(codeIssue) + " Fehler: " + msg + " "|;
            (error.None? ==> |r| == k)
            && (error.Some? ==> r[k..] == Msg.Fence + Msg.ErrorText(error.value) + Msg.Fence)
    ensures r[|r| - 1] == '`' <==> error.Some?
  {
    var p := ErrorPrefix(codeIssue) + " Fehler: " + msg + " ";
    var r := p + Msg.ErrorBlock(error);
    assert r[..|p|] == p;
    r
  }

  /** The developer mark follows the flag alone. */
  lemma ErrorMsgMark(msg: string, error: Option<Error>, codeIssue: bool)
    ensures IsPrefix(Msg.DevMark, ErrorMsg(msg, error, codeIssue)) <==> codeIssue
  {
    var r := ErrorMsg(msg, error, codeIssue);
    var p := ErrorPrefix(codeIssue);
    assert r[..|p|] == p by {
      assert IsPrefix(p + " Fehler: " + msg + " ", r);
      assert (p + " Fehler: " + msg + " ")[..|p|] == p;
    }
    assert r[0] == p[0];
  }

  /** The prefix and the text up to the details do not depend on what kind
      of error is passed, only on the flag. */
  lemma {:induction false} PrefixIgnoresErrorKind(msg: string, e1: Error, e2: Error, codeIssue: bool)
    ensures var k := |ErrorPrefix(codeIssue)| + |" Fehler: " + msg + " "|;
            k <= |ErrorMsg(msg, Some(e1), codeIssue)| && k <= |ErrorMsg(msg, Some(e2), codeIssue)|
            && ErrorMsg(msg, Some(e1), codeIssue)[..k] == ErrorMsg(msg, Some(e2), codeIssue)[..k]
  {
    var p := ErrorPrefix(codeIssue);
    var mid := " Fehler: " + msg + " ";
    assert ErrorMsg(msg, Some(e1), codeIssue)[..|p| + |mid|] == p + mid;
    assert ErrorMsg(msg, Some(e2), codeIssue)[..|p| + |mid|] == p + mid;
  }
}

/** utils.py: the earliest `error_msg`, which never carries error details. */
module RootUtils {
  import opened Text
  import Msg

  /** `error_msg(msg, code_issue=True)` */
  function ErrorMsg(msg: string, codeIssue: bool := true): (r: string)
    ensures IsPrefix(Msg.DevMark, r) <==> codeIssue
    ensures IsPrefix(Msg.CrossMark, r) <==> !codeIssue
    ensures |r| >= |msg| && r[|r| - |msg|..] == msg
    ensures var mark := if codeIssue then Msg.DevMark else Msg.CrossMark;
            |r| >= |mark| && r[..|mark|] == mark && r[|mark|..] == " Fehler: " + msg
  {
    var p := if codeIssue then Msg.DevMark else Msg.CrossMark;
    var r := p + " Fehler: " + msg;
    assert r[0] == p[0];
    r
  }
}
