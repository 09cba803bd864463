/** The HC-05 Bluetooth module driver: the baud-rate table and its use in
    both directions, role coercion, and the AT command exchange with its
    acceptance rule.  The UART is an oracle: each exchange says whether the
    transmit succeeded and what, if anything, was received. */
module Hc05 {
  import opened Wrappers
  import opened CStrings

  type U8 = x: int | 0 <= x < 0x100

  /** HC05_StatusTypeDef */
  datatype Status = Ok | Error | Timeout | NotConnected

  /** One row of baud_rate_map: a rate and the AT digit that selects it. */
  datatype BaudEntry = BaudEntry(baud: int, cmd: string)

  const BaudRateMap: seq<BaudEntry> := [
    BaudEntry(2400, "0"),
    BaudEntry(4800, "1"),
    BaudEntry(9600, "2"),
    BaudEntry(19200, "3"),
    BaudEntry(38400, "4"),
    BaudEntry(57600, "5"),
    BaudEntry(115200, "6"),
    BaudEntry(230400, "7"),
    BaudEntry(460800, "8"),
    BaudEntry(921600, "9")
  ]

  /** The decimal digit for 0 <= i < 10. */
  function Digit(i: int): char
    requires 0 <= i < 10
  {
    (('0' as int) + i) as char
  }

  /** The table has ten strictly increasing, hence distinct, rates, and
      entry `i` carries the digit for `i`. */
  lemma BaudTableShape()
    ensures |BaudRateMap| == 10
    ensures forall i :: 0 <= i < 10 ==> BaudRateMap[i].cmd == [Digit(i)]
    ensures forall i, j :: 0 <= i < j < 10 ==> BaudRateMap[i].baud < BaudRateMap[j].baud
  {
    forall i, j | 0 <= i < j < 10
      ensures BaudRateMap[i].baud < BaudRateMap[j].baud
    {
      BaudTableIncreasing(i, j);
    }
  }

  /** Adjacent rates increase; by induction on the distance, any two do. */
  lemma {:induction false} BaudTableIncreasing(i: int, j: int)
    requires 0 <= i < j < 10
    ensures BaudRateMap[i].baud < BaudRateMap[j].baud
    decreases j - i
  {
    if j > i + 1 {
      BaudTableIncreasing(i, j - 1);
    }
  }

  /** The first table index at or after `from` whose rate is `baud`. */
  function BaudIndexFrom(baud: int, from: nat): (r: Option<nat>)
    requires from <= |BaudRateMap|
    ensures r.Some? ==> from <= r.value < |BaudRateMap| && BaudRateMap[r.value].baud == baud
    ensures r.Some? ==> forall k :: from <= k < r.value ==> BaudRateMap[k].baud != baud
    ensures r.None? ==> forall k :: from <= k < |BaudRateMap| ==> BaudRateMap[k].baud != baud
    decreases |BaudRateMap| - from
  {
    if from == |BaudRateMap| then None
    else if BaudRateMap[from].baud == baud then Some(from)
    else BaudIndexFrom(baud, from + 1)
  }

  /** The index the lookup in HC05_SetBaudRate settles on. */
  function BaudIndex(baud: int): (r: Option<nat>)
    ensures r.Some? ==> r.value < |BaudRateMap| && BaudRateMap[r.value].baud == baud
    ensures r.None? ==> forall k :: 0 <= k < |BaudRateMap| ==> BaudRateMap[k].baud != baud
  {
    BaudIndexFrom(baud, 0)
  }

  /** Round trip: a listed rate's index reads back, through the table, as
      that rate; and every index maps to a rate that finds it again. */
  lemma BaudRoundTrip(baud: int, i: int)
    requires 0 <= i < |BaudRateMap|
    ensures BaudIndex(baud).Some? ==> BaudRateMap[BaudIndex(baud).value].baud == baud
    ensures BaudIndex(BaudRateMap[i].baud) == Some(i)
  {
    BaudTableShape();
  }

  /** Exactly the listed rates are found. */
  lemma BaudIndexFindsListed(baud: int)
    ensures BaudIndex(baud).Some? <==> exists i :: 0 <= i < |BaudRateMap| && BaudRateMap[i].baud == baud
  {
    if BaudIndex(baud).None? {
      assert forall k :: 0 <= k < |BaudRateMap| ==> BaudRateMap[k].baud != baud;
    }
  }

  /** HC05_SetRole's coercion: any role above 1 becomes 0. */
  function CoerceRole(role: U8): (r: U8)
    ensures r <= 1
    ensures role <= 1 ==> r == role
    ensures role > 1 ==> r == 0
  {
    if role > 1 then 0 else role
  }

  /** The `AT+ROLE%d` command for a role already coerced to 0 or 1. */
  function RoleCommand(role: U8): (cmd: string)
    requires role <= 1
    ensures role == 0 ==> cmd == "AT+ROLE0\r\n"
    ensures role == 1 ==> cmd == "AT+ROLE1\r\n"
  {
    "AT+ROLE" + [Digit(role)] + "\r\n"
  }

  /** Whichever role is asked for, only two commands can be sent. */
  lemma RoleCommandIsOneOfTwo(role: U8)
    ensures RoleCommand(CoerceRole(role)) == "AT+ROLE0\r\n" || RoleCommand(CoerceRole(role)) == "AT+ROLE1\r\n"
  {
    if CoerceRole(role) == 0 {
      assert [Digit(0)] == "0";
    } else {
      assert [Digit(1)] == "1";
    }
  }

  /** The `AT+BAUD%s` command for table entry `i`: its digit is the index. */
  function BaudCommand(i: int): (cmd: string)
    requires 0 <= i < |BaudRateMap|
    ensures cmd == "AT+BAUD" + [Digit(i)] + "\r\n"
  {
    BaudTableShape();
    "AT+BAUD" + BaudRateMap[i].cmd + "\r\n"
  }

  /** The query commands HC05_GetConfig sends, in order. */
  const Queries: seq<string> := ["AT+NAME?\r\n", "AT+PIN?\r\n", "AT+BAUD?\r\n", "AT+ROLE?\r\n"]

  /** The AT acceptance rule: the response holds "OK" or "ok". */
  predicate Accepted(response: string): (b: bool)
    ensures b <==> exists i :: OccursAt(response, "OK", i) || OccursAt(response, "ok", i)
  {
    HasSubstring(response, "OK") || HasSubstring(response, "ok")
  }

  /** An occurrence of a two-byte pattern puts its bytes side by side. */
  lemma PairAt(s: string, pat: string, i: int)
    requires |pat| == 2 && OccursAt(s, pat, i)
    ensures s[i] == pat[0] && s[i + 1] == pat[1]
  {
    assert s[i..i + 2][0] == s[i] && s[i..i + 2][1] == s[i + 1];
  }

  /** A two-byte pattern whose bytes never appear side by side is absent. */
  lemma NoPairNoMatch(s: string, pat: string)
    requires |pat| == 2
    requires forall i :: 0 <= i < |s| - 1 ==> s[i] != pat[0] || s[i + 1] != pat[1]
    ensures !HasSubstring(s, pat)
  {
    forall i | OccursAt(s, pat, i)
      ensures false
    {
      PairAt(s, pat, i);
    }
  }

  /** Mixed case is not accepted; either exact spelling is, anywhere. */
  lemma AcceptanceExamples()
    ensures !Accepted("Ok")
    ensures !Accepted("oK\r\n")
    ensures Accepted("OK\r\n")
    ensures Accepted("+ROLE:1\r\nok")
  {
    NoPairNoMatch("Ok", "OK");
    NoPairNoMatch("Ok", "ok");
    NoPairNoMatch("oK\r\n", "OK");
    NoPairNoMatch("oK\r\n", "ok");
    assert "OK\r\n"[0..2] == "OK";
    assert OccursAt("OK\r\n", "OK", 0);
    assert "+ROLE:1\r\nok"[9..11] == "ok";
    assert OccursAt("+ROLE:1\r\nok", "ok", 9);
  }

  /** One UART round trip: whether HAL_UART_Transmit succeeded and, for
      HAL_UART_Receive, the bytes received or None on a timeout. */
  datatype UartExchange = UartExchange(txOk: bool, rx: Option<string>)

  function MinNat(a: nat, b: nat): nat { if a < b then a else b }

  /** The response buffer's first `respLen` bytes after a completed receive:
      cleared, then filled with up to respLen-1 received bytes. */
  function ResponseBuffer(respLen: nat, ex: UartExchange): (buf: string)
    requires 0 < respLen
    ensures |buf| == respLen && buf[respLen - 1] == '\0'
    ensures ex.rx.Some? ==>
              var k := MinNat(|ex.rx.value|, respLen - 1);
              buf[..k] == ex.rx.value[..k] && forall i :: k <= i < respLen ==> buf[i] == '\0'
    ensures ex.rx.None? ==> forall i :: 0 <= i < respLen ==> buf[i] == '\0'
  {
    match ex.rx
    case None => Zeros(respLen)
    case Some(bytes) =>
      var k := MinNat(|bytes|, respLen - 1);
      bytes[..k] + Zeros(respLen - k)
  }

  /** The reply text the acceptance rule and the scanners see. */
  function ResponseText(respLen: nat, ex: UartExchange): (t: string)
    requires 0 < respLen
    ensures ex.rx.None? ==> t == []
    ensures ex.rx.Some? ==> t == CStr(ex.rx.value[..MinNat(|ex.rx.value|, respLen - 1)])
  {
    var buf := ResponseBuffer(respLen, ex);
    var k := if ex.rx.Some? then MinNat(|ex.rx.value|, respLen - 1) else 0;
    CStrOfZeroTail(buf, k);
    assert ex.rx.Some? ==> buf[..k] == ex.rx.value[..k];
    CStr(buf)
  }

  /** HC05_SendATCommand's result. */
  function AtStatus(cmd: Option<string>, respLen: nat, ex: UartExchange): (st: Status)
    ensures respLen == 0 || cmd.None? ==> st == Error
    ensures st == Ok <==> 0 < respLen && cmd.Some? && ex.txOk && ex.rx.Some? && Accepted(ResponseText(respLen, ex))
    ensures st == Timeout <==> 0 < respLen && cmd.Some? && ex.txOk && ex.rx.None?
    ensures st != NotConnected
  {
    if respLen == 0 || cmd.None? then Error
    else if !ex.txOk then Error
    else if ex.rx.None? then Timeout
    else if !Accepted(ResponseText(respLen, ex)) then Error
    else Ok
  }

  /** HAL_UART_Receive as the source calls it: it completes only once all
      `respLen - 1` requested bytes have arrived, and otherwise times out.
      `arrived` is what the module sends before the timeout. */
  function HalReceive(respLen: nat, arrived: string): (rx: Option<string>)
    requires 0 < respLen
    ensures rx.Some? <==> respLen - 1 <= |arrived|
    ensures rx.Some? ==> rx.value == arrived[..respLen - 1]
  {
    if respLen - 1 <= |arrived| then Some(arrived[..respLen - 1]) else None
  }

  /** As written, the module's four-byte "OK\r\n" to AT+ROLE0 never fills
      the 31 bytes a 32-byte buffer waits for, so the command reports a
      timeout; a receive that returns what arrived accepts the same reply. */
  lemma ShortReplyTimesOut()
    ensures AtStatus(Some(RoleCommand(0)), 32, UartExchange(true, HalReceive(32, "OK\r\n"))) == Timeout
    ensures AtStatus(Some(RoleCommand(0)), 32, UartExchange(true, Some("OK\r\n"))) == Ok
  {
    var ex := UartExchange(true, Some("OK\r\n"));
    assert "OK\r\n"[..MinNat(4, 31)] == "OK\r\n";
    assert CStr("OK\r\n") == "OK\r\n";
    assert ResponseText(32, ex) == "OK\r\n";
    assert "OK\r\n"[0..2] == "OK";
    assert OccursAt("OK\r\n", "OK", 0);
  }

  /** HC05_ConfigTypeDef as a value. */
  datatype ConfigValue = ConfigValue(name: string, pin: string, baudRate: int, role: U8)

  /** The sscanf calls of HC05_GetConfig, as oracles on the reply text. */
  datatype Scanners = Scanners(
    name: string -> Option<string>,
    pin: string -> Option<string>,
    baudIndex: string -> Option<int>,
    role: string -> Option<U8>)

  /** The `baud_rate` field after the baud query, with the `%d` scan's
      result: only an index inside the table selects a rate. */
  function BaudAfterQuery(stored: int, scanned: Option<int>): (b: int)
    ensures scanned.None? ==> b == stored
    ensures scanned.Some? && !(0 <= scanned.value < |BaudRateMap|) ==> b == stored
    ensures scanned.Some? && 0 <= scanned.value < |BaudRateMap| ==> b == BaudRateMap[scanned.value].baud
  {
    match scanned
    case Some(idx) => if 0 <= idx < |BaudRateMap| then BaudRateMap[idx].baud else stored
    case None => stored
  }

  /** The source reads `baud_idx` even when `%d` matched nothing; it then
      holds whatever the stack held (`stale`). */
  function BaudAfterQueryAsWritten(stored: int, scanned: Option<int>, stale: int): (b: int)
    ensures scanned.Some? ==> b == BaudAfterQuery(stored, scanned)
    ensures scanned.None? ==> b == BaudAfterQuery(stored, Some(stale))
  {
    var idx := if scanned.Some? then scanned.value else stale;
    if 0 <= idx < |BaudRateMap| then BaudRateMap[idx].baud else stored
  }

  /** A reply that contains "OK" but no number still changes the baud rate
      as written, for a stale index of 2. */
  lemma UnscannedIndexChangesBaud()
    ensures BaudAfterQueryAsWritten(38400, None, 2) == 9600
    ensures BaudAfterQuery(38400, None) == 38400
  {
  }

  /** The effect of query `q` of HC05_GetConfig, given its reply text. */
  function ApplyQuery(c: ConfigValue, q: nat, reply: string, sc: Scanners): (r: ConfigValue)
    ensures q != 0 ==> r.name == c.name
    ensures q != 1 ==> r.pin == c.pin
    ensures q != 2 ==> r.baudRate == c.baudRate
    ensures q != 3 ==> r.role == c.role
  {
    if q == 0 then (match sc.name(reply) case Some(n) => c.(name := n) case None => c)
    else if q == 1 then (match sc.pin(reply) case Some(p) => c.(pin := p) case None => c)
    else if q == 2 then c.(baudRate := BaudAfterQuery(c.baudRate, sc.baudIndex(reply)))
    else if q == 3 then (match sc.role(reply) case Some(r) => c.(role := r) case None => c)
    else c
  }

  /** The size of GetConfig's response buffer. */
  const ConfigRespLen: nat := 128

  /** The status of each query's AT exchange. */
  function QueryStatuses(uart: nat -> UartExchange): (ss: seq<Status>)
    ensures |ss| == |Queries|
  {
    seq(|Queries|, q requires 0 <= q < |Queries| => AtStatus(Some(Queries[q]), ConfigRespLen, uart(q)))
  }

  /** The number of queries, from `q` on, that succeed before the first failure. */
  function Succeeding(ss: seq<Status>, q: nat): (n: nat)
    requires q <= |ss|
    ensures q <= n <= |ss|
    ensures forall k :: q <= k < n ==> ss[k] == Ok
    ensures n < |ss| ==> ss[n] != Ok
    decreases |ss| - q
  {
    if q == |ss| || ss[q] != Ok then q else Succeeding(ss, q + 1)
  }

  /** The reply text of each query. */
  function QueryReplies(uart: nat -> UartExchange): (rs: seq<string>)
    ensures |rs| == |Queries|
  {
    seq(|Queries|, q requires 0 <= q => ResponseText(ConfigRespLen, uart(q)))
  }

  /** The configuration after the first `n` queries, each applied with its reply. */
  function Queried(c: ConfigValue, n: nat, replies: seq<string>, sc: Scanners): ConfigValue
    requires n <= |replies|
  {
    if n == 0 then c
    else ApplyQuery(Queried(c, n - 1, replies, sc), n - 1, replies[n - 1], sc)
  }

  /** Each query touches only its own field: after an early exit at query
      `n`, the fields of query `n` and the later ones are as they were. */
  lemma {:induction false} QueriedKeepsLaterFields(c: ConfigValue, n: nat, replies: seq<string>, sc: Scanners)
    requires n <= |replies|
    ensures var r := Queried(c, n, replies, sc);
            && (n <= 0 ==> r.name == c.name)
            && (n <= 1 ==> r.pin == c.pin)
            && (n <= 2 ==> r.baudRate == c.baudRate)
            && (n <= 3 ==> r.role == c.role)
  {
    if n > 0 {
      QueriedKeepsLaterFields(c, n - 1, replies, sc);
    }
  }

  /** A baud reply whose index is outside the table leaves the rate alone. */
  lemma BadIndexKeepsBaud(c: ConfigValue, reply: string, sc: Scanners)
    requires sc.baudIndex(reply).Some? && !(0 <= sc.baudIndex(reply).value < |BaudRateMap|)
    ensures ApplyQuery(c, 2, reply, sc) == c
  {
  }

  /** HC05_ConfigTypeDef, written field by field by HC05_GetConfig. */
  class Config {
    var name: string
    var pin: string
    var baudRate: int
    var role: U8

    function Value(): ConfigValue
      reads this
    {
      ConfigValue(name, pin, baudRate, role)
    }

    constructor ()
      ensures Value() == ConfigValue([], [], 0, 0)
    {
      name, pin, baudRate, role := [], [], 0, 0;
    }
  }

  /** What Config queries leave behind, given the exchanges and the parsers:
      the queries run in order and stop at the first that does not answer OK;
      the answered ones are applied to the configuration, the status is OK
      exactly when all four answered and Error otherwise, and the commands
      sent are the answered ones plus the failing one. */
  ghost predicate ConfigOutcome(st: Status, c0: ConfigValue, c1: ConfigValue, t0: seq<string>, t1: seq<string>,
                                uart: nat -> UartExchange, sc: Scanners)
  {
    var n := Succeeding(QueryStatuses(uart), 0);
    && (st == Ok <==> n == |Queries|)
    && (st != Ok ==> st == Error)
    && c1 == Queried(c0, n, QueryReplies(uart), sc)
    && t1 == t0 + Queries[..MinNat(n + 1, |Queries|)]
  }

  /** The loop stopping at a failed query `q` gives the outcome. */
  lemma FailedQueryOutcome(q: nat, c0: ConfigValue, c1: ConfigValue, t0: seq<string>, t1: seq<string>,
                           uart: nat -> UartExchange, sc: Scanners)
    requires q < |Queries| && q <= Succeeding(QueryStatuses(uart), 0)
    requires QueryStatuses(uart)[q] != Ok
    requires c1 == Queried(c0, q, QueryReplies(uart), sc)
    requires t1 == t0 + Queries[..q + 1]
    ensures ConfigOutcome(Error, c0, c1, t0, t1, uart, sc)
  {
    assert Succeeding(QueryStatuses(uart), 0) == q;
  }

  /** The loop running through all four queries gives the outcome. */
  lemma AllQueriesOutcome(c0: ConfigValue, c1: ConfigValue, t0: seq<string>, t1: seq<string>,
                          uart: nat -> UartExchange, sc: Scanners)
    requires Succeeding(QueryStatuses(uart), 0) == |Queries|
    requires c1 == Queried(c0, |Queries|, QueryReplies(uart), sc)
    requires t1 == t0 + Queries[..|Queries|]
    ensures ConfigOutcome(Ok, c0, c1, t0, t1, uart, sc)
  {
    assert Queries[..|Queries|] == Queries;
  }

  /** The driver's link to the module: the `hc05_huart` handle and,
      as ghost state, every command transmitted. */
  class Hc05Link {
    var huart: int
    ghost var transmitted: seq<string>

    constructor ()
      ensures transmitted == []
    {
      huart := 0;
      transmitted := [];
    }

    /** HC05_Init (the receive-register flush is hardware I/O). */
    method Init(handle: int)
      modifies this
      ensures huart == handle && transmitted == old(transmitted)
    {
      huart := handle;
    }

    /** HC05_SendATCommand: clear the response buffer, transmit the command,
        receive up to respLen-1 bytes and check for "OK"/"ok". */
    method SendATCommand(cmd: Option<string>, response: array<char>, respLen: nat, ex: UartExchange)
      returns (st: Status)
      requires respLen <= response.Length && respLen < 0x1_0000
      modifies this, response
      ensures st == AtStatus(cmd, respLen, ex)
      ensures respLen == 0 || cmd.None? ==>
                transmitted == old(transmitted) && response[..] == old(response[..])
      ensures 0 < respLen && cmd.Some? ==>
                && transmitted == old(transmitted) + [cmd.value]
                && response[..respLen] == (if ex.txOk then ResponseBuffer(respLen, ex) else Zeros(respLen))
                && response[respLen..] == old(response[respLen..])
      ensures huart == old(huart)
    {
      if respLen == 0 || cmd.None? {
        return Error;
      }
      forall i | 0 <= i < respLen {
        response[i] := '\0';
      }
      transmitted := transmitted + [cmd.value];
      if !ex.txOk {
        return Error;
      }
      if ex.rx.None? {
        return Timeout;
      }
      var bytes := ex.rx.value;
      var k := MinNat(|bytes|, respLen - 1);
      forall i | 0 <= i < k {
        response[i] := bytes[i];
      }
      assert response[..respLen] == ResponseBuffer(respLen, ex);
      var text := CStr(response[..respLen]);
      assert text == ResponseText(respLen, ex);
      if !HasSubstring(text, "OK") && !HasSubstring(text, "ok") {
        return Error;
      }
      return Ok;
    }

    /** HC05_SetBaudRate: search the table; a listed rate sends its AT
        command, an unlisted one fails without transmitting. */
    method SetBaudRate(baud: int, ex: UartExchange) returns (st: Status)
      modifies this
      ensures BaudIndex(baud).None? ==> st == Error && transmitted == old(transmitted)
      ensures BaudIndex(baud).Some? ==>
                var cmd := BaudCommand(BaudIndex(baud).value);
                st == AtStatus(Some(cmd), 32, ex) && transmitted == old(transmitted) + [cmd]
      ensures huart == old(huart)
    {
      var response := new char[32];
      var i := 0;
      while i < |BaudRateMap|
        invariant 0 <= i <= |BaudRateMap|
        invariant BaudIndex(baud) == BaudIndexFrom(baud, i)
        invariant transmitted == old(transmitted) && huart == old(huart)
        decreases |BaudRateMap| - i
      {
        if BaudRateMap[i].baud == baud {
          var cmd := "AT+BAUD" + BaudRateMap[i].cmd + "\r\n";
          st := SendATCommand(Some(cmd), response, 32, ex);
          return;
        }
        i := i + 1;
      }
      return Error;
    }

    /** HC05_SetRole */
    method SetRole(role: U8, ex: UartExchange) returns (st: Status)
      modifies this
      ensures st == AtStatus(Some(RoleCommand(CoerceRole(role))), 32, ex)
      ensures transmitted == old(transmitted) + [RoleCommand(CoerceRole(role))]
      ensures huart == old(huart)
    {
      var response := new char[32];
      var r := role;
      if r > 1 {
        r := 0;
      }
      var cmd := "AT+ROLE" + [Digit(r)] + "\r\n";
      st := SendATCommand(Some(cmd), response, 32, ex);
    }

    /** HC05_GetConfig: four queries in turn, each reply scanned into its
        field; the first failing query ends the call with ERROR. */
    method GetConfig(config: Config, uart: nat -> UartExchange, sc: Scanners) returns (st: Status)
      modifies this, config
      ensures ConfigOutcome(st, old(config.Value()), config.Value(), old(transmitted), transmitted, uart, sc)
      ensures huart == old(huart)
    {
      ghost var c0 := config.Value();
      ghost var t0 := transmitted;
      var response := new char[ConfigRespLen];
      var q := 0;
      while q < |Queries|
        invariant 0 <= q <= Succeeding(QueryStatuses(uart), 0)
        invariant config.Value() == Queried(c0, q, QueryReplies(uart), sc)
        invariant transmitted == t0 + Queries[..q]
        invariant huart == old(huart) && response.Length == ConfigRespLen
        decreases |Queries| - q
      {
        var s := QueryStep(config, q, response, uart, sc, c0, t0);
        if s != Ok {
          return Error;
        }
        q := q + 1;
      }
      AllQueriesOutcome(c0, config.Value(), t0, transmitted, uart, sc);
      return Ok;
    }

    /** One turn of the query loop of GetConfig: it either advances the
        loop's bookkeeping by one answered query or ends it with the outcome. */
    method QueryStep(config: Config, q: nat, response: array<char>, uart: nat -> UartExchange, sc: Scanners,
                     ghost c0: ConfigValue, ghost t0: seq<string>)
      returns (st: Status)
      requires q < |Queries| && response.Length == ConfigRespLen
      requires q <= Succeeding(QueryStatuses(uart), 0)
      requires config.Value() == Queried(c0, q, QueryReplies(uart), sc)
      requires transmitted == t0 + Queries[..q]
      modifies this, config, response
      ensures st == QueryStatuses(uart)[q]
      ensures st == Ok ==> && q + 1 <= Succeeding(QueryStatuses(uart), 0)
                           && config.Value() == Queried(c0, q + 1, QueryReplies(uart), sc)
                           && transmitted == t0 + Queries[..q + 1]
      ensures st != Ok ==> ConfigOutcome(Error, c0, config.Value(), t0, transmitted, uart, sc)
      ensures huart == old(huart)
    {
      ghost var ss := QueryStatuses(uart);
      ghost var rs := QueryReplies(uart);
      ghost var before := config.Value();
      st := Query(config, q, response, uart, sc);
      assert Queries[..q + 1] == Queries[..q] + [Queries[q]];
      if st == Ok {
        assert Queried(c0, q + 1, rs, sc) == ApplyQuery(before, q, rs[q], sc);
        ghost var n := Succeeding(ss, 0);
        assert n < |ss| ==> ss[n] != Ok;
      } else {
        FailedQueryOutcome(q, c0, config.Value(), t0, transmitted, uart, sc);
      }
    }

    /** One query of HC05_GetConfig: send it and, on success, scan the reply
        into its field. */
    method Query(config: Config, q: nat, response: array<char>, uart: nat -> UartExchange, sc: Scanners)
      returns (st: Status)
      requires q < |Queries| && response.Length == ConfigRespLen
      modifies this, config, response
      ensures st == QueryStatuses(uart)[q]
      ensures config.Value() == if st == Ok then ApplyQuery(old(config.Value()), q, QueryReplies(uart)[q], sc)
                                else old(config.Value())
      ensures transmitted == old(transmitted) + [Queries[q]] && huart == old(huart)
    {
      st := SendATCommand(Some(Queries[q]), response, ConfigRespLen, uart(q));
      if st == Ok {
        var reply := CStr(response[..ConfigRespLen]);
        assert reply == ResponseText(ConfigRespLen, uart(q)) == QueryReplies(uart)[q];
        ScanInto(config, q, reply, sc);
      }
    }

    /** The sscanf into the field of query `q`. */
    method ScanInto(config: Config, q: nat, reply: string, sc: Scanners)
      modifies config
      ensures config.Value() == ApplyQuery(old(config.Value()), q, reply, sc)
    {
      if q == 0 {
        var n := sc.name(reply);
        if n.Some? {
          config.name := n.value;
        }
      } else if q == 1 {
        var p := sc.pin(reply);
        if p.Some? {
          config.pin := p.value;
        }
      } else if q == 2 {
        var idx := sc.baudIndex(reply);
        if idx.Some? && 0 <= idx.value < |BaudRateMap| {
          config.baudRate := BaudRateMap[idx.value].baud;
        }
      } else if q == 3 {
        var r := sc.role(reply);
        if r.Some? {
          config.role := r.value;
        }
      }
    }
  }


}
