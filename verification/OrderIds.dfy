// Order ids: the id arithmetic of trading_strategy/trade_manager/trade.cpp and
// the decimal text under which ids travel (snprintf "%llu" one way,
// std::from_chars through convertTo<uint64_t> the other).

module OrderIds {

  const MULTIPLIER: nat := 10
  const FIRST_WS_REQUEST_ID: nat := 1_000_000_000_000
  const U64: nat := 0x1_0000_0000_0000_0000

  // Trade::OrderType: what an order is for inside its trade.
  datatype Role = UnknownRole | OpenLimit | OpenMarket | CloseLimit | CloseMarket

  function RoleDigit(role: Role): nat {
    match role
    case OpenLimit => 1
    case OpenMarket => 2
    case CloseLimit => 3
    case CloseMarket => 4
    case UnknownRole => 0
  }

  function MakeReqId(tradeNumber: nat, role: Role): nat {
    tradeNumber * MULTIPLIER + RoleDigit(role)
  }

  function RoleOf(id: nat): Role {
    match id % MULTIPLIER
    case 1 => OpenLimit
    case 2 => OpenMarket
    case 3 => CloseLimit
    case 4 => CloseMarket
    case _ => UnknownRole
  }

  // getOrderType inverts makeReqId, and ids of different trades or roles differ.
  lemma {:induction false} ReqIdsAreInjective(m: nat, a: Role, n: nat, b: Role)
    ensures RoleOf(MakeReqId(m, a)) == a && MakeReqId(m, a) / MULTIPLIER == m
    ensures MakeReqId(m, a) == MakeReqId(n, b) <==> m == n && a == b
  {
    assert MakeReqId(m, a) / MULTIPLIER == m && MakeReqId(m, a) % MULTIPLIER == RoleDigit(a);
    assert MakeReqId(n, b) / MULTIPLIER == n && MakeReqId(n, b) % MULTIPLIER == RoleDigit(b);
  }

  // The k-th id handed out by makeWsRequestId.
  function WsRequestId(k: nat): nat { FIRST_WS_REQUEST_ID + k }

  // An order id can reach the ids of cancel and replace requests exactly from
  // trade number 10^11 on.
  lemma ReqIdsMeetWsIdsIff(tradeNumber: nat, role: Role)
    requires !role.UnknownRole?
    ensures (exists k :: MakeReqId(tradeNumber, role) == WsRequestId(k)) <==>
            tradeNumber >= 100_000_000_000
  {
    if tradeNumber >= 100_000_000_000 {
      assert MakeReqId(tradeNumber, role) == WsRequestId(MakeReqId(tradeNumber, role) - FIRST_WS_REQUEST_ID);
    }
  }

  // ------------------------------------------------------------ decimal text

  function Show(n: nat): (s: string)
    ensures |s| > 0 && forall i :: 0 <= i < |s| ==> IsDigit(s[i])
  {
    var last := ['0' + (n % 10) as char];
    if n < 10 then last else Show(n / 10) + last
  }

  // The text of an order id is the trade number and a digit for its role.
  lemma LinkIdText(tradeNumber: nat, role: Role)
    requires tradeNumber > 0
    ensures Show(MakeReqId(tradeNumber, role)) == Show(tradeNumber) +
            match role
            case OpenLimit => "1"
            case OpenMarket => "2"
            case CloseLimit => "3"
            case CloseMarket => "4"
            case UnknownRole => "0"
  {
    var id := MakeReqId(tradeNumber, role);
    assert id / 10 == tradeNumber && id % 10 == RoleDigit(role);
  }

  predicate IsDigit(c: char) { '0' <= c <= '9' }

  // The digits from_chars consumes: the longest prefix made of digits.
  function Digits(s: string): (n: nat)
    ensures n <= |s|
  {
    if s == [] || !IsDigit(s[0]) then 0 else 1 + Digits(s[1..])
  }

  function DigitOf(c: char): nat
    requires IsDigit(c)
  {
    c as nat - '0' as nat
  }

  function Value(s: string): nat
    requires forall i :: 0 <= i < |s| ==> IsDigit(s[i])
  {
    if s == [] then 0
    else Value(s[..|s| - 1]) * 10 + DigitOf(s[|s| - 1])
  }

  lemma {:induction false} DigitsAreDigits(s: string)
    ensures forall i :: 0 <= i < Digits(s) ==> IsDigit(s[i])
    ensures (forall i :: 0 <= i < |s| ==> IsDigit(s[i])) ==> Digits(s) == |s|
  {
    if s != [] && IsDigit(s[0]) {
      DigitsAreDigits(s[1..]);
      forall i | 0 <= i < Digits(s)
        ensures IsDigit(s[i])
      {
        if i > 0 {
          assert s[i] == s[1..][i - 1];
        }
      }
    }
  }

  // convertTo<uint64_t>: no leading digit and a value beyond 64 bits both give 0.
  function FromChars(s: string): nat {
    DigitsAreDigits(s);
    var v := Value(s[..Digits(s)]);
    if v < U64 then v else 0
  }

  lemma {:induction false} ValueOfShow(n: nat)
    ensures Value(Show(n)) == n
  {
    var s := Show(n);
    if n >= 10 {
      ValueOfShow(n / 10);
      assert s[..|s| - 1] == Show(n / 10);
    } else {
      assert s[..|s| - 1] == [];
    }
  }

  // The id written into a cancel or replace request is the id read back from it.
  lemma LinkIdRoundTrip(id: nat)
    requires id < U64
    ensures FromChars(Show(id)) == id
  {
    DigitsAreDigits(Show(id));
    assert Show(id)[..|Show(id)|] == Show(id);
    ValueOfShow(id);
  }
}
