/** The Bluetooth debug console: a 128-byte receive buffer filled one byte
    per UART interrupt, flushed on a line end or when full, and a small
    command language that reads the controller state or tunes one PID
    field.  Bytes are modelled as characters with the same code; C strings
    are the prefix before the first NUL. */
module Bluetooth {
  import opened Wrappers
  import opened CStrings
  import Tb6612
  import Balance

  /** RX_BUF_SIZE */
  const RxBufSize: int := 128

  /** CmdType */
  datatype CmdType = Unknown | GetInfo | SetP | SetI | SetD | SetTarget

  predicate IsSetter(c: CmdType) {
    c == SetP || c == SetI || c == SetD || c == SetTarget
  }

  /** strncmp(s, prefix, |prefix|) == 0 on a C string `s`. */
  predicate StartsWith(s: string, prefix: string) {
    |prefix| <= |s| && s[..|prefix|] == prefix
  }

  /** get_cmd_type: the exact word "get", else the first matching two-byte
      setter prefix, else unknown. */
  function GetCmdType(s: string): (c: CmdType)
    ensures c == GetInfo <==> s == "get"
    ensures c == SetP <==> StartsWith(s, "P ")
    ensures c == SetI <==> StartsWith(s, "I ")
    ensures c == SetD <==> StartsWith(s, "D ")
    ensures c == SetTarget <==> StartsWith(s, "T ")
    ensures IsSetter(c) ==> 2 <= |s|
  {
    if s == "get" then assert s[..2][0] == 'g'; GetInfo
    else if StartsWith(s, "P ") then SetP
    else if StartsWith(s, "I ") then SetI
    else if StartsWith(s, "D ") then SetD
    else if StartsWith(s, "T ") then SetTarget
    else Unknown
  }

  /** Near misses are unknown: an extended "get", a setter letter without
      its space, or a lower-case setter. */
  lemma NearMissesAreUnknown()
    ensures GetCmdType("getx") == Unknown
    ensures GetCmdType("get ") == Unknown
    ensures GetCmdType("P") == Unknown
    ensures GetCmdType("p 1") == Unknown
    ensures GetCmdType("") == Unknown
    ensures GetCmdType("P 1.5") == SetP && GetCmdType("T -2") == SetTarget
  {
    assert "getx" != "get";
    assert "get " != "get";
    assert "p 1"[..2][0] == 'p';
    assert "P 1.5"[..2] == "P ";
    assert "T -2"[..2] == "T ";
  }

  predicate IsNewline(b: char) {
    b == '\r' || b == '\n'
  }

  /** The length left once the trailing run of CR/LF bytes is removed. */
  function TrimmedLength(s: string): (n: nat)
    ensures n <= |s|
    ensures n == 0 || !IsNewline(s[n - 1])
    decreases |s|
  {
    if |s| > 0 && IsNewline(s[|s| - 1]) then TrimmedLength(s[..|s| - 1]) else |s|
  }

  /** Only the trailing line ends go: every removed byte is CR or LF and the
      kept bytes are exactly the prefix. */
  lemma {:induction false} TrimRemovesOnlyTrailingNewlines(s: string)
    ensures forall i :: TrimmedLength(s) <= i < |s| ==> IsNewline(s[i])
    decreases |s|
  {
    if |s| > 0 && IsNewline(s[|s| - 1]) {
      var s' := s[..|s| - 1];
      TrimRemovesOnlyTrailingNewlines(s');
      forall i | TrimmedLength(s) <= i < |s|
        ensures IsNewline(s[i])
      {
        if i < |s| - 1 {
          assert s[i] == s'[i];
        }
      }
    }
  }

  /** A buffer holding no line ends is left whole. */
  lemma {:induction false} TrimWithoutNewlines(s: string)
    requires forall i :: 0 <= i < |s| ==> !IsNewline(s[i])
    ensures TrimmedLength(s) == |s|
  {
  }

  /** What the console sends back (the snprintf text itself is not modelled). */
  datatype Reply =
    | Echo(command: string)
    | StatusReport(kp: real, ki: real, kd: real, target: real, pitch: real, speedA: int, speedB: int)
    | ParamAck(cmd: CmdType, value: real)
    | BadNumber
    | Usage

  /** handle_param_set on the PID record: a parsed value goes to the one
      field the command names. */
  function SetParam(r: Balance.PidRecord, cmd: CmdType, value: Option<real>): (q: Balance.PidRecord)
    ensures value.None? || !IsSetter(cmd) ==> q == r
    ensures q.(kp := r.kp, ki := r.ki, kd := r.kd, target := r.target) == r
    ensures value.Some? ==>
              && (cmd == SetP ==> q.kp == value.value && q == r.(kp := q.kp))
              && (cmd == SetI ==> q.ki == value.value && q == r.(ki := q.ki))
              && (cmd == SetD ==> q.kd == value.value && q == r.(kd := q.kd))
              && (cmd == SetTarget ==> q.target == value.value && q == r.(target := q.target))
  {
    match value
    case None => r
    case Some(v) =>
      match cmd
      case SetP => r.(kp := v)
      case SetI => r.(ki := v)
      case SetD => r.(kd := v)
      case SetTarget => r.(target := v)
      case _ => r
  }

  /** handle_param_set's replies: a parse failure is reported first, whatever
      the command; a non-setter sends nothing after a successful parse. */
  function ParamReplies(cmd: CmdType, value: Option<real>): (rs: seq<Reply>)
    ensures value.None? ==> rs == [BadNumber]
    ensures value.Some? && IsSetter(cmd) ==> rs == [ParamAck(cmd, value.value)]
    ensures |rs| <= 1
  {
    match value
    case None => [BadNumber]
    case Some(v) => if IsSetter(cmd) then [ParamAck(cmd, v)] else []
  }

  /** `cmd + 2`: the text after a setter's two-byte prefix, which the `%f`
      scanner reads. */
  function ArgumentText(text: string): (arg: string)
    requires 2 <= |text|
    ensures |arg| == |text| - 2 && text == text[..2] + arg
  {
    text[2..]
  }

  /** ParseBluetoothCommand on a terminated command text: the PID record
      afterwards. */
  function Tune(r: Balance.PidRecord, text: string, scan: string -> Option<real>): (q: Balance.PidRecord)
    ensures !IsSetter(GetCmdType(text)) ==> q == r
    ensures IsSetter(GetCmdType(text)) ==> q == SetParam(r, GetCmdType(text), scan(ArgumentText(text)))
  {
    var cmd := GetCmdType(text);
    if IsSetter(cmd) then SetParam(r, cmd, scan(ArgumentText(text))) else r
  }

  /** ParseBluetoothCommand on a terminated command text: the replies sent,
      with `status` the report a "get" would send. */
  function Replies(text: string, scan: string -> Option<real>, status: Reply): (rs: seq<Reply>)
    ensures 1 <= |rs| <= 2 && rs[0] == Echo(text)
    ensures GetCmdType(text) == GetInfo ==> rs == [Echo(text), status]
    ensures GetCmdType(text) == Unknown ==> rs == [Echo(text), Usage]
    ensures IsSetter(GetCmdType(text)) ==> rs == [Echo(text)] + ParamReplies(GetCmdType(text), scan(ArgumentText(text)))
  {
    var cmd := GetCmdType(text);
    [Echo(text)] +
      match cmd
      case GetInfo => [status]
      case Unknown => [Usage]
      case _ => ParamReplies(cmd, scan(ArgumentText(text)))
  }

  /** The receive side of the debug console: the static `rx_buf`/`rx_len`
      pair and the controller globals the commands read and tune. */
  class BluetoothDebug {
    const rxBuf: array<char>
    var rxLen: int
    /** Everything sent back over the link, oldest first. */
    ghost var replies: seq<Reply>
    /** balance_pid, current_pitch and the motor driver. */
    const control: Balance.BalanceLoop

    /** Bytes past `rx_len` are zero (the buffer is cleared with memset and
        filled from the front), at least one byte is kept free for the
        terminator, and line ends are never stored. */
    ghost predicate Valid()
      reads this, rxBuf
    {
      && rxBuf.Length == RxBufSize
      && 0 <= rxLen < RxBufSize
      && (forall i :: rxLen <= i < RxBufSize ==> rxBuf[i] == '\0')
      && (forall i :: 0 <= i < rxLen ==> !IsNewline(rxBuf[i]))
    }

    /** The received line so far. */
    ghost function Pending(): string
      reads this, rxBuf
      requires Valid()
    {
      rxBuf[..rxLen]
    }

    constructor (control: Balance.BalanceLoop)
      ensures Valid() && fresh(rxBuf) && rxLen == 0 && replies == [] && this.control == control
    {
      rxBuf := new char[RxBufSize](_ => '\0');
      rxLen := 0;
      replies := [];
      this.control := control;
    }

    /** The report handle_get_info formats. */
    function Status(): (r: Reply)
      reads this, control, control.pid, control.motors
      ensures r.StatusReport?
      ensures r.kp == control.pid.kp && r.ki == control.pid.ki && r.kd == control.pid.kd
      ensures r.target == control.pid.target && r.pitch == control.currentPitch
      ensures r.speedA == control.motors.speedA && r.speedB == control.motors.speedB
      ensures control.motors.Valid() ==> r.speedA <= Tb6612.PwmMax && r.speedB <= Tb6612.PwmMax
    {
      StatusReport(control.pid.kp, control.pid.ki, control.pid.kd, control.pid.target,
                   control.currentPitch,
                   control.motors.CurrentSpeed(Tb6612.MotorA), control.motors.CurrentSpeed(Tb6612.MotorB))
    }

    /** The trailing-newline loop of ParseBluetoothCommand. */
    method EffectiveLength(len: int) returns (n: int)
      requires 0 <= len <= rxBuf.Length
      ensures n == TrimmedLength(rxBuf[..len])
    {
      n := len;
      while n > 0
        invariant 0 <= n <= len
        invariant TrimmedLength(rxBuf[..n]) == TrimmedLength(rxBuf[..len])
        decreases n
      {
        var last := rxBuf[n - 1];
        if last == '\r' || last == '\n' {
          assert rxBuf[..n][..n - 1] == rxBuf[..n - 1];
          n := n - 1;
        } else {
          break;
        }
      }
    }

    /** handle_param_set */
    method HandleParamSet(cmd: CmdType, param: string, scan: string -> Option<real>)
      modifies this, control.pid
      ensures control.pid.Record() == SetParam(old(control.pid.Record()), cmd, scan(param))
      ensures replies == old(replies) + ParamReplies(cmd, scan(param))
      ensures rxLen == old(rxLen)
    {
      var value := scan(param);
      if value.None? {
        replies := replies + [BadNumber];
        return;
      }
      match cmd {
        case SetP => control.pid.kp := value.value;
        case SetI => control.pid.ki := value.value;
        case SetD => control.pid.kd := value.value;
        case SetTarget => control.pid.target := value.value;
        case _ => return;
      }
      replies := replies + [ParamAck(cmd, value.value)];
    }

    /** ParseBluetoothCommand(rx_buf, len): strip trailing line ends, write
        the terminator, echo the command and dispatch it. */
    method ParseCommand(len: int, scan: string -> Option<real>)
      requires rxBuf.Length == RxBufSize && 0 <= len <= RxBufSize
      modifies this, rxBuf, control.pid
      ensures var t := TrimmedLength(old(rxBuf[..len]));
              rxBuf[..] == old(rxBuf[..])[(if t < RxBufSize then t else RxBufSize - 1) := '\0']
      ensures replies == old(replies) + Replies(CStr(rxBuf[..]), scan, old(Status()))
      ensures control.pid.Record() == Tune(old(control.pid.Record()), CStr(rxBuf[..]), scan)
      ensures rxLen == old(rxLen)
    {
      var n := EffectiveLength(len);
      if n < RxBufSize {
        rxBuf[n] := '\0';
      } else {
        rxBuf[RxBufSize - 1] := '\0';
      }
      var text := CStr(rxBuf[..]);
      Dispatch(text, scan);
    }

    /** The echo and the switch on the command type in ParseBluetoothCommand. */
    method Dispatch(text: string, scan: string -> Option<real>)
      modifies this, control.pid
      ensures replies == old(replies) + Replies(text, scan, old(Status()))
      ensures control.pid.Record() == Tune(old(control.pid.Record()), text, scan)
      ensures rxLen == old(rxLen)
    {
      replies := replies + [Echo(text)];
      var cmd := GetCmdType(text);
      match cmd {
        case GetInfo =>
          replies := replies + [Status()];
        case SetP | SetI | SetD | SetTarget =>
          HandleParamSet(cmd, text[2..], scan);
        case Unknown =>
          replies := replies + [Usage];
      }
    }

    /** Parse the pending line, then clear the buffer. */
    method Flush(scan: string -> Option<real>)
      requires Valid()
      modifies this, rxBuf, control.pid
      ensures Valid() && rxLen == 0
      ensures forall i :: 0 <= i < RxBufSize ==> rxBuf[i] == '\0'
      ensures replies == old(replies) + Replies(CStr(old(Pending())), scan, old(Status()))
      ensures control.pid.Record() == Tune(old(control.pid.Record()), CStr(old(Pending())), scan)
    {
      ghost var pending := Pending();
      TrimWithoutNewlines(pending);
      CStrCut(rxBuf[..], rxLen);
      assert rxBuf[..][..rxLen] == pending;
      ParseCommand(rxLen, scan);
      rxLen := 0;
      forall i | 0 <= i < RxBufSize {
        rxBuf[i] := '\0';
      }
    }

    /** HC05_RxCallback for the byte `rxTemp` just received on `huart`. */
    method RxCallback(huart: int, hc05Huart: int, rxTemp: char, scan: string -> Option<real>)
      requires Valid()
      modifies this, rxBuf, control.pid
      ensures Valid()
      // another UART, or a line end with nothing pending: nothing happens
      ensures huart != hc05Huart || (IsNewline(rxTemp) && old(rxLen) == 0) ==>
                && rxLen == old(rxLen) && rxBuf[..] == old(rxBuf[..]) && replies == old(replies)
                && control.pid.Record() == old(control.pid.Record())
      // an ordinary byte with room left is appended
      ensures huart == hc05Huart && !IsNewline(rxTemp) && old(rxLen) < RxBufSize - 1 ==>
                && rxLen == old(rxLen) + 1 && Pending() == old(Pending()) + [rxTemp]
                && replies == old(replies) && control.pid.Record() == old(control.pid.Record())
      // a line end, or a byte arriving at a full buffer (and then dropped),
      // runs the pending command and clears the buffer
      ensures huart == hc05Huart
              && ((IsNewline(rxTemp) && old(rxLen) > 0) || (!IsNewline(rxTemp) && old(rxLen) == RxBufSize - 1)) ==>
                && rxLen == 0 && (forall i :: 0 <= i < RxBufSize ==> rxBuf[i] == '\0')
                && replies == old(replies) + Replies(CStr(old(Pending())), scan, old(Status()))
                && control.pid.Record() == Tune(old(control.pid.Record()), CStr(old(Pending())), scan)
    {
      if huart != hc05Huart {
        return;
      }
      if rxTemp == '\r' || rxTemp == '\n' {
        if rxLen > 0 {
          Flush(scan);
        }
      } else {
        if rxLen < RxBufSize - 1 {
          rxBuf[rxLen] := rxTemp;
          rxLen := rxLen + 1;
          assert rxBuf[..rxLen] == old(rxBuf[..rxLen]) + [rxTemp];
        } else {
          Flush(scan);
        }
      }
    }
  }
}
