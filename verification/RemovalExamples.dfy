/** A run in which removing a domain takes the time of a publisher that stays listed. */
module RemovalExamples {
  import opened Common
  import opened Directory
  import opened DirectoryRuns
  import opened DirectoryTimes
  import opened DirectoryExamples
  import opened Replication
  import opened Leaving
  import opened Restarts
  import opened Removals

  const CAMERA := Row("Camera", "tcp://a:1", "camera", 1000000)
  const CONTROL := Row("Camera", "tcp://s:1", "camera", 2000000)

  function ServiceOf(url: string): Owner { Owner(Key("far", "Camera"), if url == "tcp://s:1" then Service else Data) }

  const SHARED := Key("far", "Camera")

  /** The own directory after it was told of a data product and of a service with the same ID. */
  function Told(): seq<Request> { [RowRequest("far", CAMERA, Data), RowRequest("far", CONTROL, Service)] }

  /** What Remove asks for when the picture has both rows and the service was the last change. */
  function Withdrawing(): seq<Request> { RemovalRequests("far", [CONTROL, CAMERA], Service, 1) }

  lemma CameraStep()
    ensures var st := Step(Fresh("near"), RowRequest("far", CAMERA, Data));
            st.domain == "near" && st.instances == map["tcp://a:1" := 1000000]
            && forall key: Key :: key.domain == "near" ==> st.Listed(key) == []
  {
    hide Find, PublishDetails, Lists, Purge;
    var start, r := Fresh("near"), RowRequest("far", CAMERA, Data).reg;
    var placed := Announce(PlaceData(start, SHARED, r, 1000000), SHARED);
    forall other ensures !Rival(placed, r.id, r.url, other) { EmptyHasNobody(placed.Listed(placed.Own(other)), r.url); }
    PurgeInstances(placed, r.id, r.url);
    forall key: Key ensures key.domain == "near" ==> Step(start, Register(r)).Listed(key) == [] {
      StepLists(start, Register(r), key);
    }
  }

  lemma EmptyHasNobody(list: seq<Publisher>, url: string)
    requires list == []
    ensures !Lists(list, url)
  {}

  lemma ControlStep(st: State)
    requires st.domain == "near" && "tcp://s:1" !in st.instances
    requires forall key: Key :: key.domain == "near" ==> st.Listed(key) == []
    ensures var st' := Step(st, RowRequest("far", CONTROL, Service));
            SHARED in st'.services && st'.instances == st.instances["tcp://s:1" := 2000000]
  {
    hide Find, PublishDetails, Lists, Purge, BacklogUpdates;
    var r := RowRequest("far", CONTROL, Service).reg;
    var placed := PlaceService(st, SHARED, r);
    forall other ensures !Rival(placed, r.id, r.url, other) { EmptyHasNobody(placed.Listed(placed.Own(other)), r.url); }
    PurgeInstances(placed, r.id, r.url);
  }

  lemma ToldIsTimed()
    ensures var own := Run(Fresh("near"), Told());
            Timed(ServiceOf, own) && own.domain == "near" && SHARED in own.services
            && own.instances == map["tcp://a:1" := 1000000, "tcp://s:1" := 2000000]
  {
    hide Step, Timed, Run;
    var start := Fresh("near");
    FreshIsTimed(ServiceOf, "near");
    RunsStayTimed(ServiceOf, start, Told());
    CameraStep();
    var first := Step(start, Told()[0]);
    assert "tcp://s:1"[6] != "tcp://a:1"[6];
    ControlStep(first);
    RunTwo(start, Told()[0], Told()[1]);
  }

  lemma WithdrawingIs()
    ensures Withdrawing() == [Unregister(Unregistration("Camera", "tcp://s:1", Service, Some("far"), 1)),
                              Unregister(Unregistration("Camera", "tcp://a:1", Service, Some("far"), 1))]
  {
    RowsOf("far", [CONTROL, CAMERA], Service, 1, 0);
    RowsOf("far", [CONTROL, CAMERA], Service, 1, 1);
    hide RemovalRequests;
  }

  /** The first unregistration finds no service of its second; the second one takes the time of the camera. */
  lemma SharedIdForgetsTheTime()
    ensures var own := Run(Fresh("near"), Told());
            var left := Run(own, Withdrawing());
            Timed(ServiceOf, own) && left.Listed(SHARED) == own.Listed(SHARED)
            && Entries(left, SHARED) != Entries(own, SHARED)
  {
    hide Timed, Run, Step, Entries;
    ToldIsTimed();
    WithdrawingIs();
    var own := Run(Fresh("near"), Told());
    var mid := Step(own, Withdrawing()[0]);
    MissedChanges(own, Withdrawing()[0].unreg);
    SameTimed(ServiceOf, own, mid);
    SameEntries(own, mid, SHARED);
    ServiceRemovalForgetsExactly(ServiceOf, mid, Withdrawing()[1].unreg);
    RunTwo(own, Withdrawing()[0], Withdrawing()[1]);
  }
}
