/**
  pcf8574_ts.cpp: an eight-bit port expander with active-low outputs.  `data` is the driver's shadow byte,
  `wire` the byte that was last sent to the device.
*/
module Pcf8574 {
  datatype Board = Board(data: bv8, wire: bv8)

  /** A port number, 0 to 7. */
  type Port = bv3

  const ORIENT: Port := 4
  const ABLUFT_0: Port := 0
  const ABLUFT_1: Port := 1
  const HSGUI_POWER: Port := 3
  const HSGUI_RESET: Port := 2
  const VENTIL_1: Port := 0
  const VENTIL_2: Port := 1
  const STECKDOSE: Port := 3

  function Mask(port: Port): bv8 {
    1 << port
  }

  /** An output is on when its bit is 0. */
  predicate IsOn(data: bv8, port: Port) {
    data & Mask(port) == 0
  }

  /** on() clears the bit, off() sets it, and both send the byte. */
  function Put(b: Board, port: Port, on: bool): Board {
    var data := if on then b.data & !Mask(port) else b.data | Mask(port);
    Board(data, data)
  }

  function Sent(b: Board): Board {
    b.(wire := b.data)
  }

  /** One output changes, the other seven stay. */
  lemma PutChangesOneOutput(b: Board, port: Port, on: bool, other: Port)
    ensures IsOn(Put(b, port, on).data, other) == if other == port then on else IsOn(b.data, other)
  {
    var d, p, q := b.data, Mask(port), Mask(other);
    if other == port {
      assert (d & !p) & p == 0 && (d | p) & p == p && p != 0;
    } else {
      assert p & q == 0;
      assert (d & !p) & q == d & q && (d | p) & q == d & q;
    }
  }

  class Pcf8574 {
    var data: bv8
    var wire: bv8

    ghost function Now(): Board
      reads this
    {
      Board(data, wire)
    }

    constructor ()
      ensures data == 255
    {
      data := 255;
      wire := 0;
    }

    method Init()
      modifies this
      ensures Now() == Sent(old(Now()))
    {
      wire := data;
    }

    method Set(port: Port, state: bool)
      modifies this
      ensures Now() == Put(old(Now()), port, state)
    {
      if state {
        On(port);
      } else {
        Off(port);
      }
    }

    method Off(port: Port)
      modifies this
      ensures Now() == Put(old(Now()), port, false)
    {
      data := data | Mask(port);
      wire := data;
    }

    method On(port: Port)
      modifies this
      ensures Now() == Put(old(Now()), port, true)
    {
      data := data & !Mask(port);
      wire := data;
    }
  }
}
