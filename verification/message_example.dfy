/** The test instance of the message contract: a 1024-cell array of u32 as
    the data, a rectangle of coordinates as the input, and a message whose
    pass numbers the cells 0, 1, 2, ... once per point of the rectangle. */
module MessageExample {
  import opened Wrappers
  import opened Message

  type U32 = x: int | 0 <= x < 0x1_0000_0000

  /** The number of cells in a MessageArray. */
  const Size: nat := 1024

  type Cells = s: seq<U32> | |s| == Size witness seq(1024, _ => 0)

  datatype MessageArray = MessageArray(data: Cells)

  datatype Coordinates = Coordinates(x0: nat, y0: nat, x1: nat, y1: nat)

  datatype ThreadMessage = ThreadMessage(messageArray: MessageArray, currentInput: Coordinates)

  /** MessageArray::new (MessageData::new) */
  function NewMessageArray(): (a: MessageArray)
    ensures forall i :: 0 <= i < Size ==> a.data[i] == 0
  {
    MessageArray(seq(Size, _ => 0))
  }

  /** Coordinates::new (MessageInput::new) */
  function NewCoordinates(): (c: Coordinates)
    ensures c.x0 == 0 && c.y0 == 0 && c.x1 == 0 && c.y1 == 0
    ensures Iterations(c) == 0
  {
    Coordinates(0, 0, 0, 0)
  }

  /** ThreadMessage::new (Message::new): zeroed data, zero coordinates. */
  function NewThreadMessage(): (m: ThreadMessage)
    ensures forall i :: 0 <= i < Size ==> m.messageArray.data[i] == 0
    ensures m.currentInput == Coordinates(0, 0, 0, 0)
  {
    ThreadMessage(NewMessageArray(), NewCoordinates())
  }

  /** MessageArray::clone: copy every cell into a zeroed array. */
  method CloneArray(a: MessageArray) returns (b: MessageArray)
    ensures b == a
  {
    var newArray: seq<U32> := seq(Size, _ => 0);
    var i := 0;
    while i < Size
      invariant i <= Size && |newArray| == Size
      invariant forall j :: 0 <= j < i ==> newArray[j] == a.data[j]
    {
      newArray := newArray[i := a.data[i]];
      i := i + 1;
    }
    assert newArray == a.data;
    b := MessageArray(newArray);
  }

  /** ThreadMessage::clone_message_data: a copy of the stored array; the
      message itself is not touched. */
  method CloneMessageData(m: ThreadMessage) returns (a: MessageArray)
    ensures a == m.messageArray
  {
    a := CloneArray(m.messageArray);
  }

  /** ThreadMessage::clone: the array is copied cell by cell and the
      coordinates field by field. */
  method CloneThreadMessage(m: ThreadMessage) returns (r: ThreadMessage)
    ensures r == m
  {
    var a := CloneArray(m.messageArray);
    var c := m.currentInput;
    r := ThreadMessage(a, Coordinates(c.x0, c.y0, c.x1, c.y1));
  }

  /** ThreadMessage::set_input: the message now holds the given rectangle
      and keeps its array. */
  function SetInput(m: ThreadMessage, c: Coordinates): (r: ThreadMessage)
    ensures r.currentInput == c && r.messageArray == m.messageArray
  {
    m.(currentInput := c)
  }

  /** The number of iterations of `for _ in lo..hi`. */
  function Span(lo: nat, hi: nat): nat
  {
    if lo < hi then hi - lo else 0
  }

  /** How many times the inner body of `work` runs for a rectangle. */
  function Iterations(c: Coordinates): nat
  {
    Span(c.y0, c.y1) * Span(c.x0, c.x1)
  }

  function FillCell(c: Coordinates, a: MessageArray, i: nat): U32
    requires i < Size
  {
    if i < Iterations(c) then i else a.data[i]
  }

  /** The cells after numbering the first `Iterations(c)` of them, or all of
      them when the rectangle has more points than the array has cells. */
  function Fill(c: Coordinates, a: MessageArray): (b: MessageArray)
    ensures forall i :: 0 <= i < Size && i < Iterations(c) ==> b.data[i] == i
    ensures forall i :: Iterations(c) <= i < Size ==> b.data[i] == a.data[i]
  {
    MessageArray(seq(Size, i requires 0 <= i < Size => FillCell(c, a, i)))
  }

  /** ThreadMessage::work: None when the pass indexes past the array (the
      source panics there). */
  function Work(m: ThreadMessage): (r: Option<ThreadMessage>)
    ensures r.Some? <==> Iterations(m.currentInput) <= Size
    ensures r.Some? ==> r.value.currentInput == m.currentInput
    ensures r.Some? ==> forall i :: 0 <= i < Size ==>
              r.value.messageArray.data[i] == (if i < Iterations(m.currentInput) then i else m.messageArray.data[i])
  {
    if Iterations(m.currentInput) <= Size then Some(m.(messageArray := Fill(m.currentInput, m.messageArray)))
    else None
  }

  /** One more full row of `w` cells: the bound the panic branch of
      `WorkPass` needs, by induction on the row width. */
  lemma {:induction false} MulStep(a: nat, b: nat, w: nat)
    requires a < b
    ensures a * w + w <= b * w
    decreases w
  {
    if w > 0 {
      MulStep(a, b, w - 1);
      assert a * w == a * (w - 1) + a;
      assert b * w == b * (w - 1) + b;
    }
  }

  /** ThreadMessage::work as the source writes it: two nested loops over
      the rectangle, with one counter that starts at 0 on every call and
      numbers the cells in order. */
  method WorkPass(m: ThreadMessage) returns (r: Option<ThreadMessage>)
    ensures r.Some? <==> Iterations(m.currentInput) <= Size
    ensures r.Some? ==> r.value.currentInput == m.currentInput
    ensures r.Some? ==> forall i :: 0 <= i < Size ==>
              r.value.messageArray.data[i] == (if i < Iterations(m.currentInput) then i else m.messageArray.data[i])
    ensures r == Work(m)
  {
    var c := m.currentInput;
    var w := Span(c.x0, c.x1);
    var data: seq<U32> := m.messageArray.data;
    var counter: nat := 0;
    var y := c.y0;
    while y < c.y1
      invariant c.y0 <= y && (y <= c.y1 || y == c.y0)
      invariant counter == (y - c.y0) * w && counter <= Size
      invariant |data| == Size
      invariant forall i :: 0 <= i < Size ==> data[i] == (if i < counter then i else m.messageArray.data[i])
    {
      var x := c.x0;
      while x < c.x1
        invariant c.x0 <= x && (x <= c.x1 || x == c.x0)
        invariant counter == (y - c.y0) * w + (x - c.x0) && counter <= Size
        invariant |data| == Size
        invariant forall i :: 0 <= i < Size ==> data[i] == (if i < counter then i else m.messageArray.data[i])
      {
        if counter >= Size {
          // array[counter] is out of bounds: the pass panics
          MulStep(y - c.y0, c.y1 - c.y0, w);
          return None;
        }
        data := data[counter := counter];
        counter := counter + 1;
        x := x + 1;
      }
      assert counter == (y + 1 - c.y0) * w by {
        assert x - c.x0 == w;
      }
      y := y + 1;
    }
    assert counter == Iterations(c);
    assert data == Fill(c, m.messageArray).data;
    r := Some(m.(messageArray := MessageArray(data)));
  }

  /** The contract instance used by the test. */
  function ThreadOps(): (ops: MessageOps<MessageArray, Coordinates, ThreadMessage>)
    ensures ops.storedInput(ops.newMessage()) == ops.newInput() == NewCoordinates()
    ensures forall m :: Work(m).Some? ==> ops.work(m) == Work(m).value
  {
    MessageOps(
      () => NewMessageArray(),
      () => NewCoordinates(),
      () => NewThreadMessage(),
      (m: ThreadMessage, c: Coordinates) => SetInput(m, c),
      (m: ThreadMessage) => m.(messageArray := Fill(m.currentInput, m.messageArray)),
      (m: ThreadMessage) => m.messageArray,
      (m: ThreadMessage) => m.currentInput,
      (c: Coordinates, a: MessageArray) => Fill(c, a))
  }

  /** The test instance satisfies the message contract. */
  lemma ThreadOpsLawful()
    ensures Lawful(ThreadOps())
  {
  }

  /** The largest entry, found by the test's scan from the first cell to
      the last, starting from 0. */
  function Highest(s: seq<U32>): (h: U32)
    ensures forall i :: 0 <= i < |s| ==> s[i] <= h
    ensures h == 0 || exists i :: 0 <= i < |s| && s[i] == h
  {
    if |s| == 0 then 0
    else
      var h := Highest(s[..|s| - 1]);
      if h < s[|s| - 1] then s[|s| - 1] else h
  }

  /** A 32 by 32 tile, as the test builds them. */
  predicate IsTile(c: Coordinates)
  {
    c.x1 == c.x0 + 32 && c.y1 == c.y0 + 32
  }

  /** A tile numbers every cell, whatever the array held before, so the
      highest entry is 1023 and the test's assertion holds. */
  lemma TileNumbersEveryCell(c: Coordinates, a: MessageArray)
    requires IsTile(c)
    ensures forall i :: 0 <= i < Size ==> Fill(c, a).data[i] == i
    ensures Highest(Fill(c, a).data) == 1023
    ensures Highest(Fill(c, a).data) % 32 == 31
  {
    assert Iterations(c) == 1024;
    var d := Fill(c, a).data;
    assert d[1023] == 1023;
  }

  /** The inputs of the test: the 32 by 32 tiles of a 1024 by 768 image,
      row by row. */
  function TestCoordinates(): (cs: seq<Coordinates>)
    ensures |cs| == 768
    ensures forall i :: 0 <= i < |cs| ==> IsTile(cs[i])
    ensures forall i :: 0 <= i < |cs| ==> cs[i].x1 <= 1024 && cs[i].y1 <= 768
  {
    seq(768, i requires 0 <= i < 768 =>
      Coordinates(32 * (i % 32), 32 * (i / 32), 32 * (i % 32) + 32, 32 * (i / 32) + 32))
  }
}
