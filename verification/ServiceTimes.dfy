/** What a lookup of a service answers when every URL has one owner: the whole answer, from the requests about the
    service alone. */
module ServiceTimes {
  import opened Common
  import opened Directory
  import opened DirectoryTimes
  import opened ServiceLookups

  // ----- the time of the provider

  lemma ObeyInit(owners: Owners, domain: string, requests: seq<Request>)
    requires AllObey(owners, domain, requests) && requests != []
    ensures AllObey(owners, domain, requests[..|requests| - 1])
    ensures Obeys(owners, domain, requests[|requests| - 1])
  {
    hide Obeys;
  }

  /** Only requests about the service touch the time of its provider. */
  lemma OthersLeaveTheTime(owners: Owners, domain: string, requests: seq<Request>, key: Key, url: string)
    requires AllObey(owners, domain, requests) && requests != [] && owners(url) == Owner(key, Service)
    requires var last := |requests| - 1;
             !Enrols(domain, requests, key, last) && !Withdraws(domain, requests, key, last)
    ensures Recorded(Run(Fresh(domain), requests), url) ==
            Recorded(Run(Fresh(domain), requests[..|requests| - 1]), url)
  {
    hide Anchored, Step, Found, Stale, Run, AllObey;
    var last := |requests| - 1;
    var before := Run(Fresh(domain), requests[..last]);
    ObeyInit(owners, domain, requests);
    RunsAreAnchored(owners, domain, requests[..last]);
    OneMoreRun(Fresh(domain), requests);
    StepAnchored(owners, before, requests[last]);
  }

  lemma RegistrationSetsTheTime(owners: Owners, domain: string, requests: seq<Request>, key: Key)
    requires AllObey(owners, domain, requests) && requests != []
    requires Enrols(domain, requests, key, |requests| - 1)
    ensures var r := requests[|requests| - 1].reg;
            r.timestamp.Some? && Recorded(Run(Fresh(domain), requests), r.url) == r.timestamp
  {
    hide Anchored, Step, Found, Run, AllObey;
    var last := |requests| - 1;
    ObeyInit(owners, domain, requests);
    RunsAreAnchored(owners, domain, requests[..last]);
    OneMoreRun(Fresh(domain), requests);
    StepAnchored(owners, Run(Fresh(domain), requests[..last]), requests[last]);
  }

  lemma OwnerOf(owners: Owners, domain: string, requests: seq<Request>, key: Key, i: nat)
    requires AllObey(owners, domain, requests) && Enrols(domain, requests, key, i)
    ensures i < |requests| && requests[i].Register? && owners(requests[i].reg.url) == Owner(key, Service)
  {
    hide Run, Stale;
  }

  lemma {:induction false} ProviderHasItsTime(owners: Owners, domain: string, requests: seq<Request>, key: Key, i: nat)
    requires AllObey(owners, domain, requests) && Provides(domain, requests, key, i)
    ensures i < |requests| && requests[i].Register? && requests[i].reg.timestamp.Some?
            && Recorded(Run(Fresh(domain), requests), requests[i].reg.url) == requests[i].reg.timestamp
    decreases |requests|
  {
    hide Enrols, Withdraws, Run, AllObey;
    OwnerOf(owners, domain, requests, key, i);
    var last := |requests| - 1;
    ProvidesMore(domain, requests, key, i);
    if i == last {
      RegistrationSetsTheTime(owners, domain, requests, key);
    } else {
      ObeyInit(owners, domain, requests);
      ProviderHasItsTime(owners, domain, requests[..last], key, i);
      OthersLeaveTheTime(owners, domain, requests, key, requests[i].reg.url);
    }
  }

  /** With every URL in the hands of one owner, the lookup also answers the second of that registration. */
  lemma ServiceLookupsTellTheTime(owners: Owners, domain: string, requests: seq<Request>, id: string,
                                  requested: Option<string>, i: nat)
    requires AllObey(owners, domain, requests)
    requires var key := Key(if requested == None || requested == Some("") then domain else requested.value, id);
             Provides(domain, requests, key, i)
    ensures i < |requests| && requests[i].Register? && requests[i].reg.timestamp.Some?
    ensures var key := Key(if requested == None || requested == Some("") then domain else requested.value, id);
            Reply(Run(Fresh(domain), requests), Lookup(id, Service, requested)) ==
            ProviderIs(key, requests[i].reg.url, Some(Seconds(requests[i].reg.timestamp.value)))
  {
    hide Run, Provides, AllObey, Seconds;
    var key := Key(if requested == None || requested == Some("") then domain else requested.value, id);
    ProviderHasItsTime(owners, domain, requests, key, i);
    ServicesAreProvided(domain, requests, key);
  }

  // ----- which requests are accepted

  /** What the requests about one service amount to: its provider, and the times of the URLs it has used. */
  datatype Offer = Offer(url: Option<string>, times: map<string, nat>)

  /** A registration must not be older than the last one at its URL, and an unregistration must name the second of the
      last one at its URL, though not the URL of the provider. */
  function Offered(domain: string, requests: seq<Request>, key: Key): Offer {
    if requests == [] then Offer(None, map[])
    else
      var o := Offered(domain, requests[..|requests| - 1], key);
      match requests[|requests| - 1]
      case Register(r) =>
        if r.kind.Service? && Names(domain, r.domain, r.id, key) && r.timestamp.Some?
           && (r.url in o.times ==> o.times[r.url] <= r.timestamp.value)
        then Offer(Some(r.url), o.times[r.url := r.timestamp.value]) else o
      case Unregister(u) =>
        if u.kind.Service? && Names(domain, u.domain, u.id, key) && o.url.Some? && u.url in o.times
           && o.times[u.url] / 1000000 == u.regTime
        then Offer(None, o.times - {u.url}) else o
      case Lookup(_, _, _) => o
  }

  ghost predicate Matches(owners: Owners, st: State, key: Key, o: Offer) {
    && (key in st.services <==> o.url.Some?) && (key in st.services ==> st.services[key] == o.url.value)
    && (forall url | owners(url) == Owner(key, Service) ::
          (url in st.instances <==> url in o.times) && (url in st.instances ==> st.instances[url] == o.times[url]))
    && (forall url | url in o.times :: owners(url) == Owner(key, Service))
    && (o.url.Some? ==> o.url.value in o.times)
  }

  lemma {:induction false} OffersMatch(owners: Owners, domain: string, requests: seq<Request>, key: Key)
    requires AllObey(owners, domain, requests)
    ensures Matches(owners, Run(Fresh(domain), requests), key, Offered(domain, requests, key))
  {
    if requests != [] {
      hide Anchored, Step, Run, AllObey, Matches, Offered;
      var last := |requests| - 1;
      var before := Run(Fresh(domain), requests[..last]);
      ObeyInit(owners, domain, requests);
      OffersMatch(owners, domain, requests[..last], key);
      RunsAreAnchored(owners, domain, requests[..last]);
      OneMoreRun(Fresh(domain), requests);
      StepAnchored(owners, before, requests[last]);
      StepServices(before, requests[last]);
      match requests[last]
      case Register(_) => RegistrationMatches(owners, before, domain, requests, key);
      case Unregister(_) => UnregistrationMatches(owners, before, domain, requests, key);
      case Lookup(_, _, _) => LookupMatches(owners, before, domain, requests, key);
    }
  }

  lemma RegistrationMatches(owners: Owners, before: State, domain: string, requests: seq<Request>, key: Key)
    requires requests != [] && requests[|requests| - 1].Register? && before.domain == domain
    requires Matches(owners, before, key, Offered(domain, requests[..|requests| - 1], key))
    requires Obeys(owners, domain, requests[|requests| - 1])
    requires var r, st := requests[|requests| - 1].reg, Step(before, requests[|requests| - 1]);
             && st.instances == InstancesAfter(before, requests[|requests| - 1])
             && st.services == if r.kind.Service? && !Stale(before, r)
                               then before.services[Key(r.domain.Or(domain), r.id) := r.url] else before.services
    ensures Matches(owners, Step(before, requests[|requests| - 1]), key, Offered(domain, requests, key))
  {
    hide Step;
  }

  lemma UnregistrationMatches(owners: Owners, before: State, domain: string, requests: seq<Request>, key: Key)
    requires requests != [] && requests[|requests| - 1].Unregister? && before.domain == domain
    requires Matches(owners, before, key, Offered(domain, requests[..|requests| - 1], key))
    requires Obeys(owners, domain, requests[|requests| - 1])
    requires var u, st := requests[|requests| - 1].unreg, Step(before, requests[|requests| - 1]);
             && st.instances == InstancesAfter(before, requests[|requests| - 1])
             && st.services == if u.kind.Service? && Found(before, u)
                               then before.services - {Key(u.domain.Or(domain), u.id)} else before.services
    ensures Matches(owners, Step(before, requests[|requests| - 1]), key, Offered(domain, requests, key))
  {
    hide Step, FindInstance;
  }

  lemma LookupMatches(owners: Owners, before: State, domain: string, requests: seq<Request>, key: Key)
    requires requests != [] && requests[|requests| - 1].Lookup?
    requires Matches(owners, before, key, Offered(domain, requests[..|requests| - 1], key))
    requires var st := Step(before, requests[|requests| - 1]);
             st.instances == before.instances && st.services == before.services
    ensures Matches(owners, Step(before, requests[|requests| - 1]), key, Offered(domain, requests, key))
  {
    hide Step;
  }

  /** So the answer is a matter of the requests that name the service, whatever else the directory has served. */
  lemma ServiceLookupsFollowTheRequests(owners: Owners, domain: string, requests: seq<Request>, id: string,
                                        requested: Option<string>)
    requires AllObey(owners, domain, requests)
    ensures var key := Key(if requested == None || requested == Some("") then domain else requested.value, id);
            var o := Offered(domain, requests, key);
            && (o.url.Some? ==> o.url.value in o.times)
            && Reply(Run(Fresh(domain), requests), Lookup(id, Service, requested)) ==
               if o.url.Some? then ProviderIs(key, o.url.value, Some(o.times[o.url.value] / 1000000))
               else ProviderIs(key, "", None)
  {
    hide Run, Offered, AllObey;
    var key := Key(if requested == None || requested == Some("") then domain else requested.value, id);
    OffersMatch(owners, domain, requests, key);
    RunsAreAnchored(owners, domain, requests);
    AnchoredParts(owners, Run(Fresh(domain), requests));
    hide Anchored;
  }
}
