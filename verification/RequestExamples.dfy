/** Two requests are enough for the expiry scan to hang, and for the loop to oversleep a deadline. */
module RequestExamples {
  import opened Requests

  function Asking(milliseconds: int): Event {
    Ask("Position", "", 1, "tcp://a:1", milliseconds, 7, 1000)
  }

  function Waiting(ticket: nat, timeout: int): Details {
    Details(ticket, "Position", "", 1, "tcp://a:1", timeout, 7)
  }

  /** After two requests at time 1000. */
  lemma TwoAsked(first: int, second: int)
    ensures var st := Run([Asking(first), Asking(second)]);
            var d0 := Waiting(0, if first > 0 then 1000 + first else -1);
            var d1 := Waiting(1, if second > 0 then 1000 + second else -1);
            Good(st) && st == State(map[2 := d0, 3 := d1], [NODE, RESPONSE, 2, 3], 4, [d0, d1], [])
  {
    hide Good;
    var events := [Asking(first), Asking(second)];
    assert events[..1] == [Asking(first)] && events[..1][..0] == [];
    assert Run(events[..1][..0]) == Start;
    assert Run(events[..1]) == Step(Start, Asking(first));
    assert [NODE, RESPONSE] + [2] + [3] == [NODE, RESPONSE, 2, 3];
  }

  lemma LateOne(st: State, now: int)
    requires 2 in st.requests && 3 in st.requests && !Expired(st.requests[2], now) && Expired(st.requests[3], now)
    ensures Late(st, [2, 3], now) == [3]
  {
    assert [2, 3][..1] == [2] && [2][..0] == [];
    assert Late(st, [2], now) == [];
  }

  /** The first request may wait for ever and the second for 100 milliseconds: at its deadline the scan does not end. */
  lemma SecondExpiresFirst()
    ensures var st := Run([Asking(0), Asking(100)]);
            Late(st, [2, 3], 1100) == [3] && Hangs(st, Late(st, [2, 3], 1100), 1100)
  {
    hide Run, Hangs, Good;
    TwoAsked(0, 100);
    var st := Run([Asking(0), Asking(100)]);
    LateOne(st, 1100);
    HangsExactly(st, [3], 1100);
    assert st.poll[2..][0] == 2;
  }

  /** The first request may wait for 100 milliseconds and the second for 10: the loop sleeps for 100. */
  lemma SecondIsOverslept()
    ensures var st := Run([Asking(100), Asking(10)]);
            NextTimeout(st, [2, 3], 1000) == 100 && Timed(st, 3, 1000)
            && st.requests[3].timeout == 1010 < 1000 + NextTimeout(st, [2, 3], 1000)
  {
    hide Run, Good;
    TwoAsked(100, 10);
    assert [2, 3][..1] == [2] && [2][..0] == [];
    var st := Run([Asking(100), Asking(10)]);
    assert NextTimeout(st, [2], 1000) == 100;
  }
}
