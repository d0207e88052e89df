/** The prototype root model: a list of plays, a 32-bit index into it, a
    viewport, and a text drawing of the field. */
module Prototype {
  import opened Tea

  newtype int32 = x: int | -0x8000_0000 <= x < 0x8000_0000

  const MaxInt32: int32 := 0x7fff_ffff
  const MinInt32: int32 := -0x8000_0000

  /** `x++` on a 32-bit integer: wraps from the largest value to the smallest. */
  function Inc32(x: int32): (r: int32)
    ensures x < MaxInt32 ==> r as int == x as int + 1
    ensures x == MaxInt32 ==> r == MinInt32
  {
    if x == MaxInt32 then MinInt32 else x + 1
  }

  /** `x--` on a 32-bit integer: wraps from the smallest value to the largest. */
  function Dec32(x: int32): (r: int32)
    ensures x > MinInt32 ==> r as int == x as int - 1
    ensures x == MinInt32 ==> r == MaxInt32
  {
    if x == MinInt32 then MaxInt32 else x - 1
  }

  datatype Play = Play(playText: string, yardLine: int)

  /** The viewport widget's state; how it reacts to keys is its own. */
  datatype Viewport = Viewport(width: int, height: int, content: string)

  datatype Model = Model(plays: seq<Play>, index: int32, viewport: Viewport)

  /** `initialModel`: no plays, the index at 0, a zero viewport. */
  function InitialModel(): (m: Model)
    ensures m.plays == [] && m.index == 0
  {
    Model([], 0, Viewport(0, 0, ""))
  }

  function Max(a: int, b: int): int
  {
    if a < b then b else a
  }

  /** The keys the first key switch names. */
  predicate IsHandledKey(key: string)
  {
    key in {"q", "ctrl+c", "esc", "r", "left", "right"}
  }

  /** One message. Both key switches of the source run one after the other,
      so "right" and "left" each step the index twice (left stops at 0), and
      "r" fetches the plays twice; `fetched` is what the fetches return.
      Keys the first switch does not name go to the viewport. */
  method Update(m: Model, msg: Msg, fetched: seq<Play>, viewportUpdate: (Viewport, Msg) -> (Viewport, Cmd))
    returns (next: Model, cmd: Cmd)
    ensures msg.KeyMsg? && msg.key in {"q", "ctrl+c", "esc"} ==> next == m && cmd == QuitCmd
    ensures msg == KeyMsg("right") ==> next == m.(index := Inc32(Inc32(m.index))) && cmd == NoCmd
    ensures msg == KeyMsg("right") && m.index < MaxInt32 - 1 ==> next.index as int == m.index as int + 2
    ensures msg == KeyMsg("left") ==> next.plays == m.plays && next.viewport == m.viewport && cmd == NoCmd
    ensures msg == KeyMsg("left") && m.index >= 0 ==> next.index as int == Max(m.index as int - 2, 0)
    ensures msg == KeyMsg("left") && m.index < 0 ==> next.index == Dec32(Dec32(m.index))
    ensures msg == KeyMsg("r") ==> next == m.(plays := fetched) && cmd == NoCmd
    ensures msg.KeyMsg? && !IsHandledKey(msg.key) ==>
      next == m.(viewport := viewportUpdate(m.viewport, msg).0) && cmd == viewportUpdate(m.viewport, msg).1
    ensures !msg.KeyMsg? ==> next == m && cmd == NoCmd
  {
    next := m;
    match msg {
      case NavigateToTeamMsg(_) =>
        // the navigation stack push only logs
      case NavigateToTeamsMsg(_) =>
      case OtherMsg(_) =>
      case KeyMsg(key) =>
        if key == "q" || key == "ctrl+c" || key == "esc" {
          return next, QuitCmd;
        } else if key == "r" {
          next := next.(plays := fetched);
        } else if key == "left" {
          if next.index != 0 {
            next := next.(index := Dec32(next.index));
          }
        } else if key == "right" {
          next := next.(index := Inc32(next.index));
        } else {
          var (viewport, viewportCmd) := viewportUpdate(next.viewport, msg);
          return next.(viewport := viewport), viewportCmd;
        }
    }
    if msg.KeyMsg? {
      var key := msg.key;
      if key == "ctrl+c" || key == "q" {
        return next, QuitCmd;
      } else if key == "r" {
        next := next.(plays := fetched);
      } else if key == "left" {
        if next.index != 0 {
          next := next.(index := Dec32(next.index));
        }
      } else if key == "right" {
        next := next.(index := Inc32(next.index));
      }
    }
    return next, NoCmd;
  }

  /** The field character at yard i for a ball on `ydLine`. */
  function FieldChar(ydLine: int, i: int): char
  {
    if ydLine == i then 'x' else if i % 5 == 0 then '|' else ' '
  }

  /** The field: 100 yards, a tick every five, the ball at its yard line. The
      view size and padding are accepted and not used. */
  method BallOn(ydLine: int, viewSize: int, pad: int) returns (field: string)
    ensures |field| == 100
    ensures forall i :: 0 <= i < 100 && i != ydLine ==> field[i] == (if i % 5 == 0 then '|' else ' ')
    ensures 0 <= ydLine < 100 ==> field[ydLine] == 'x'
    ensures forall i, j :: 0 <= i < j < 100 ==> !(field[i] == 'x' && field[j] == 'x')
    ensures 'x' in field <==> 0 <= ydLine < 100
  {
    field := "";
    var yards := 100;
    for i := 0 to yards
      invariant |field| == i
      invariant forall k :: 0 <= k < i ==> field[k] == FieldChar(ydLine, k)
    {
      if ydLine == i {
        field := field + "x";
      } else if i % 5 == 0 {
        field := field + "|";
      } else {
        field := field + " ";
      }
    }
    assert forall k :: 0 <= k < 100 ==> (field[k] == 'x' <==> k == ydLine);
    if 0 <= ydLine < 100 {
      assert field[ydLine] == 'x';
    }
  }
}
