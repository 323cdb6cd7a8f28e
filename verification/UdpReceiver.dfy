/** The receiver's loop over its four maps, and the directory's side of its commands. */
module UdpReceivers {
  import opened Common
  import opened Times
  import opened Liveness
  import opened LivenessCommands

  class UdpReceiver {
    const ourDomain: string
    const validDomains: seq<string>
    var receivedCountMap: map<string, nat>
    var broadcastRateMap: map<string, nat>
    var expectedMsgTimeMap: map<string, Time>
    var connectedDomainMap: map<string, int>
    var sent: seq<Command>
    ghost var log: seq<Entry>

    ghost function View(): State
      reads this
    {
      State(receivedCountMap, broadcastRateMap, expectedMsgTimeMap, connectedDomainMap, sent, log)
    }

    constructor (ourDomain: string, validDomains: seq<string>)
      ensures this.ourDomain == ourDomain && this.validDomains == validDomains && View() == Start
    {
      this.ourDomain, this.validDomains := ourDomain, validDomains;
      receivedCountMap, broadcastRateMap, expectedMsgTimeMap, connectedDomainMap := map[], map[], map[], map[];
      sent, log := [], [];
    }

    method IsValidDomain(domain: string) returns (valid: bool)
      ensures valid == (domain in validDomains || "*" in validDomains)
    {
      for i := 0 to |validDomains|
        invariant forall k | 0 <= k < i :: validDomains[k] != domain && validDomains[k] != "*"
      {
        if domain == validDomains[i] || validDomains[i] == "*" { return true; }
      }
      return false;
    }

    method HearBroadcast(b: Beacon, now: Time)
      modifies this
      ensures View() == Hear(old(View()), b, now)
    {
      var d := b.domain;
      if d !in receivedCountMap {
        receivedCountMap := receivedCountMap[d := 1];
        broadcastRateMap := broadcastRateMap[d := b.rate];
      } else {
        var count := receivedCountMap[d] + 1;
        if count >= MAX_RECEIVE_COUNT {
          count := MAX_RECEIVE_COUNT;
          if d !in connectedDomainMap {
            connectedDomainMap := connectedDomainMap[d := b.startTime];
            sent := sent + [Add(d, b.url)];
          } else if connectedDomainMap[d] != b.startTime {
            connectedDomainMap := connectedDomainMap[d := b.startTime];
            sent := sent + [Update(d, b.url)];
          }
        }
        receivedCountMap := receivedCountMap[d := count];
      }
      expectedMsgTimeMap := expectedMsgTimeMap[d := AddTime(now, b.rate)];
      log := log + [Entry(d, Hit(b, now))];
    }

    /** A deadline has passed. */
    method Missed(d: string) returns (removed: bool)
      requires d in receivedCountMap && d in broadcastRateMap && d in expectedMsgTimeMap
      modifies this
      ensures View() == Lose(old(View()), d) && removed == (d !in receivedCountMap) && d in expectedMsgTimeMap
    {
      var seen: int := receivedCountMap[d];
      var count := seen - 1;
      removed := count <= 0;
      if removed {
        if d in connectedDomainMap {
          sent := sent + [Remove(d)];
        }
        connectedDomainMap := connectedDomainMap - {d};
        receivedCountMap := receivedCountMap - {d};
        broadcastRateMap := broadcastRateMap - {d};
      } else {
        expectedMsgTimeMap := expectedMsgTimeMap[d := AddTime(expectedMsgTimeMap[d], broadcastRateMap[d])];
        receivedCountMap := receivedCountMap[d := count];
      }
      log := log + [Entry(d, Miss)];
    }

    /** Checks every deadline, in the order of the domains' names, and finds the next timeout. */
    method CheckDeadlines(domains: seq<string>, now: Time) returns (timeout: Time, removeSet: set<string>)
      requires Fits(View(), {}) && Distinct(domains) && forall d | d in domains :: d in receivedCountMap
      modifies this
      ensures Sweep(View(), removeSet, timeout) == CheckAll(Sweep(old(View()), {}, ZERO), domains, now)
    {
      hide Lose, SubtractTime, Fits, Distinct;
      timeout, removeSet := ZERO, {};
      ghost var st0 := View();
      assert domains[..0] == [];
      for i := 0 to |domains|
        invariant Sweep(View(), removeSet, timeout) == CheckAll(Sweep(st0, {}, ZERO), domains[..i], now)
      {
        assert domains[..i + 1][..i] == domains[..i];
        var d := domains[i];
        StillKnown(st0, domains, i, now);
        var removed := false;
        if CompareTime(expectedMsgTimeMap[d], now) <= 0 { removed := Missed(d); }
        if removed {
          removeSet := removeSet + {d};
        } else {
          var timeToWait := SubtractTime(expectedMsgTimeMap[d], now);
          if CompareTime(ZERO, timeout) == 0 || CompareTime(timeToWait, timeout) < 0 { timeout := timeToWait; }
        }
      }
      assert domains[..|domains|] == domains;
    }

    /** One round of the loop: the result is the next receive timeout, zero blocking for good. */
    method HandleReceive(e: Event, now: Time) returns (timeout: Time)
      requires Fits(View(), {}) && !e.Empty?
      modifies this
      ensures (View(), timeout) == Round(ourDomain, validDomains, old(View()), e, now) && Fits(View(), {})
    {
      hide Fits, Hear, Ascending;
      ghost var st0 := View();
      RoundFits(ourDomain, validDomains, st0, e, now);
      if e.Received? && ourDomain != e.beacon.domain {
        var valid := IsValidDomain(e.beacon.domain);
        if valid {
          HearFits(st0, e.beacon, now);
          HearBroadcast(e.beacon, now);
        }
      }
      var removeSet;
      SweptDomains(View());
      timeout, removeSet := CheckDeadlines(Ascending(expectedMsgTimeMap.Keys), now);
      expectedMsgTimeMap := expectedMsgTimeMap - removeSet;
    }
  }

  lemma StillKnown(st: State, domains: seq<string>, i: nat, now: Time)
    requires Fits(st, {}) && Distinct(domains) && (forall d | d in domains :: d in st.counts) && i < |domains|
    ensures var mid, d := CheckAll(Sweep(st, {}, ZERO), domains[..i], now).st, domains[i];
            d in mid.counts && d in mid.rates && d in mid.expected
  {
    hide CheckAll;
    assert domains[i] !in domains[..i] && Distinct(domains[..i]);
    CheckAllFits(st, domains[..i], now, ZERO);
  }

  /** The part of the directory that keeps the map of other domains. */
  class DomainKeeper {
    var domainMap: map<string, string>
    ghost var obeyed: seq<Command>

    ghost predicate Valid()
      reads this
    {
      domainMap == DomainMap(obeyed)
    }

    constructor ()
      ensures Valid() && domainMap == map[]
    {
      domainMap, obeyed := map[], [];
    }

    method ProcessDomainCommand(c: Command)
      requires Valid()
      modifies this
      ensures Valid() && obeyed == old(obeyed) + [c] && domainMap == Obey(old(domainMap), c)
    {
      if c.Add? { domainMap := domainMap[c.domain := c.url]; }
      if c.Update? {
        domainMap := domainMap[c.domain := c.url];
      } else if c.Remove? {
        domainMap := domainMap - {c.domain};
      }
      obeyed := obeyed + [c];
      assert obeyed[..|obeyed| - 1] == old(obeyed);
    }
  }
}
