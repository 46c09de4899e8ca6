/**
 * `detect_baud_rate`: the rates tried when automatic baud detection is on.
 * Opening the port at a rate, reading from it and closing it again (the
 * `with` block sits inside the `try`, so a failing close also skips the
 * rate) is replaced by the oracle `probe(port, rate)`, true when opening,
 * reading and closing the port at that rate raise nothing.
 */
module Baud {
  import opened Wrappers

  /** The common rates, in the order they are tried. */
  const RATES: seq<nat> := [9600, 19200, 38400, 57600, 115200, 230400, 460800, 921600]

  lemma RatesAscending()
    ensures forall i, j :: 0 <= i < j < |RATES| ==> RATES[i] < RATES[j]
  {
  }

  /** The first of `rates` at which `port` answers without raising. */
  function FirstResponding(rates: seq<nat>, port: string, probe: (string, nat) -> bool): (r: Option<nat>)
    ensures r.None? <==> forall i :: 0 <= i < |rates| ==> !probe(port, rates[i])
    ensures r.Some? ==> r.value in rates && probe(port, r.value)
  {
    if rates == [] then None
    else if probe(port, rates[0]) then Some(rates[0])
    else
      var r := FirstResponding(rates[1..], port, probe);
      assert forall i :: 0 < i < |rates| ==> rates[i] == rates[1..][i - 1];
      r
  }

  /** Every rate tried before the one found failed. */
  lemma {:induction false} FirstRespondingIsFirst(rates: seq<nat>, port: string, probe: (string, nat) -> bool, k: nat)
    requires k < |rates| && FirstResponding(rates, port, probe).Some?
    requires rates[k] == FirstResponding(rates, port, probe).value
    requires forall i, j :: 0 <= i < j < |rates| ==> rates[i] < rates[j]
    ensures forall i :: 0 <= i < k ==> !probe(port, rates[i])
  {
    if k > 0 && !probe(port, rates[0]) {
      FirstRespondingIsFirst(rates[1..], port, probe, k - 1);
    }
  }

  /** The result of the scan: the detected rate, or `None` when every rate fails. */
  function Scan(port: string, probe: (string, nat) -> bool): Option<nat> {
    FirstResponding(RATES, port, probe)
  }

  /** The detected rate is the smallest rate of the list at which the port answers. */
  lemma ScanFindsSmallestAnswering(port: string, probe: (string, nat) -> bool)
    ensures Scan(port, probe).Some? ==>
              forall rate :: rate in RATES && rate < Scan(port, probe).value ==> !probe(port, rate)
  {
    var r := Scan(port, probe);
    if r.Some? {
      var k :| 0 <= k < |RATES| && RATES[k] == r.value;
      RatesAscending();
      FirstRespondingIsFirst(RATES, port, probe, k);
      forall rate | rate in RATES && rate < r.value
        ensures !probe(port, rate)
      {
        var j :| 0 <= j < |RATES| && RATES[j] == rate;
        assert j < k;
      }
    }
  }

  /**
   * The loop of `detect_baud_rate`: tries the rates in ascending order and
   * returns the first that answers, whether or not any byte was read.
   */
  method DetectBaudRate(port: string, probe: (string, nat) -> bool) returns (r: Option<nat>)
    ensures r == Scan(port, probe)
    ensures r.Some? ==> r.value in RATES && probe(port, r.value)
    ensures r.Some? ==> forall rate :: rate in RATES && rate < r.value ==> !probe(port, rate)
    ensures r.None? <==> forall rate :: rate in RATES ==> !probe(port, rate)
  {
    for i := 0 to |RATES|
      invariant forall j :: 0 <= j < i ==> !probe(port, RATES[j])
      invariant FirstResponding(RATES[i..], port, probe) == Scan(port, probe)
    {
      if probe(port, RATES[i]) {
        r := Some(RATES[i]);
        ScanFindsSmallestAnswering(port, probe);
        return;
      }
      assert RATES[i..][1..] == RATES[i + 1..];
    }
    r := None;
  }
}
