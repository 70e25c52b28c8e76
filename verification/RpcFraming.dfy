/** The framing of rpc.js: a length-prefixed printer and a resumable parser fed with chunks. */
module RpcFraming {
  import opened Collections

  type byte = b: int | 0 <= b < 256

  const NEWLINE: byte := 10
  const ZERO: byte := 48
  const SHORTEST := 14 // {"command":""}

  /** What JSON.parse makes of a body: a command object, or some other JSON value. */
  datatype Value<C> = Command(c: C) | Other

  /** JSON.stringify of a command, JSON.parse (None when it throws) and Number on a text that is not all digits
      (None for NaN). */
  datatype Codec<!C> = Codec(encode: C -> seq<byte>, parse: seq<byte> -> Option<Value<C>>,
                             odd: seq<byte> -> Option<int>)

  predicate IsDigits(s: seq<byte>) {
    forall i :: 0 <= i < |s| ==> ZERO <= s[i] < ZERO + 10
  }

  /** JSON: a printed command parses back, is never shorter than its wrapper, the empty text is an error, and a
      run of digits with no leading zero is a number. */
  ghost predicate Lawful<C(!new)>(x: Codec<C>) {
    && x.parse([]) == None
    && (forall c :: x.parse(x.encode(c)) == Some(Command(c)))
    && (forall c :: |x.encode(c)| >= SHORTEST)
    && (forall s :: s != [] && s[0] != ZERO && IsDigits(s) ==> x.parse(s) == Some(Other))
  }

  // ---------------------------------------------------------------- the printer

  function Digits(n: nat): seq<byte> {
    if n < 10 then [ZERO + n] else Digits(n / 10) + [ZERO + n % 10]
  }

  /** A decimal header is non-empty, all digits, without a leading zero, and reads back as the number. */
  lemma {:induction false} DigitsRead(n: nat)
    ensures Digits(n) != [] && IsDigits(Digits(n)) && Decimal(Digits(n)) == n
    ensures n > 0 ==> Digits(n)[0] != ZERO
  {
    if n < 10 {
    } else {
      DigitsRead(n / 10);
    }
  }

  /** Number on a text of digits; the empty text is 0. */
  function Decimal(s: seq<byte>): int {
    if s == [] then 0 else 10 * Decimal(s[..|s| - 1]) + (s[|s| - 1] - ZERO)
  }

  function Number<C>(x: Codec<C>, s: seq<byte>): Option<int> {
    if IsDigits(s) then Some(Decimal(s)) else x.odd(s)
  }

  function Header<C>(x: Codec<C>, c: C): seq<byte> {
    Digits(|x.encode(c)|)
  }

  function Frame<C>(x: Codec<C>, c: C): seq<byte> {
    Header(x, c) + [NEWLINE] + x.encode(c)
  }

  function Stream<C>(x: Codec<C>, cs: seq<C>): seq<byte> {
    if cs == [] then [] else Frame(x, cs[0]) + Stream(x, cs[1..])
  }

  // ---------------------------------------------------------------- the parser

  /** lengthObj: None for an undefined buffer; None for a length that is NaN. */
  datatype Parser = Parser(buffer: Option<seq<byte>>, getLength: bool, length: Option<int>) {
    function Bytes(): seq<byte> {
      if buffer.Some? then buffer.value else []
    }
  }

  const FRESH := Parser(None, true, Some(-1))

  /** buffer.slice(0, end): a negative end counts from the end. */
  function Upto(b: seq<byte>, end: int): seq<byte> {
    if end >= |b| then b else if end >= 0 then b[..end] else if |b| + end >= 0 then b[..|b| + end] else []
  }

  /** buffer.slice(start): a negative start counts from the end. */
  function From(b: seq<byte>, start: int): seq<byte> {
    if start >= |b| then [] else if start >= 0 then b[start..] else if |b| + start >= 0 then b[|b| + start..] else b
  }

  function Clear(b: seq<byte>, length: int): Option<seq<byte>> {
    if |b| > length then Some(From(b, length)) else None
  }

  function ReadHeader<C>(x: Codec<C>, p: Parser): (q: Parser)
    ensures |q.Bytes()| <= |p.Bytes()|
  {
    if !p.getLength || p.buffer.None? then p
    else
      var b := p.buffer.value;
      var i := First(b, (c: byte) => c == NEWLINE);
      if i < |b| then Parser(Clear(b, i + 1), false, Number(x, b[..i])) else p
  }

  datatype Drained<C> = Drained(parser: Parser, out: seq<Value<C>>)

  /** getComands: what is parsed from the buffer, and the state it leaves. */
  function Drain<C>(x: Codec<C>, p: Parser): Drained<C>
    requires x.parse([]) == None
    decreases |p.Bytes()|, 1
  {
    TakeBody(x, ReadHeader(x, p))
  }

  function TakeBody<C>(x: Codec<C>, p: Parser): Drained<C>
    requires x.parse([]) == None
    decreases |p.Bytes()|, 0
  {
    if p.buffer.None? || p.length.None? || |p.buffer.value| < p.length.value then Drained(p, [])
    else
      var b, n := p.buffer.value, p.length.value;
      match x.parse(Upto(b, n))
      case None => Drained(p.(getLength := true), [])
      case Some(v) =>
        var q := Parser(Clear(b, n), true, p.length);
        if q.Bytes() == [] then Drained(q, [v])
        else
          var d := Drain(x, q);
          Drained(d.parser, [v] + d.out)
  }

  function OnData<C>(x: Codec<C>, p: Parser, data: seq<byte>): Drained<C>
    requires x.parse([]) == None
  {
    Drain(x, p.(buffer := Some(p.Bytes() + data)))
  }

  function Feed<C>(x: Codec<C>, p: Parser, chunks: seq<seq<byte>>): Drained<C>
    requires x.parse([]) == None
    decreases |chunks|
  {
    if chunks == [] then Drained(p, [])
    else
      var d := OnData(x, p, chunks[0]);
      var e := Feed(x, d.parser, chunks[1..]);
      Drained(e.parser, d.out + e.out)
  }

  // ---------------------------------------------------------------- what a state stands for

  /** A place in a stream: the last length read, the commands not yet handed over, and how much of the first of
      their frames has come in. */
  datatype Place<C> = Place(last: int, todo: seq<C>, off: nat)

  function Advance<C>(x: Codec<C>, at: Place<C>, m: nat): Place<C>
    decreases |at.todo|
  {
    if at.todo == [] || at.off + m < |Frame(x, at.todo[0])| then at.(off := at.off + m)
    else Advance(x, Place(|x.encode(at.todo[0])|, at.todo[1..], 0), at.off + m - |Frame(x, at.todo[0])|)
  }

  /** A chunk may end here: the digits of an unfinished header are not taken for a body of the stale length. */
  predicate Clean<C>(x: Codec<C>, at: Place<C>) {
    at.todo == [] || at.off > |Header(x, at.todo[0])| || at.off < if at.last < 0 then 2 else at.last
  }

  /** The state represents the unread suffix: the buffer is what has come in of the part being read. */
  ghost predicate Represents<C>(x: Codec<C>, p: Parser, at: Place<C>) {
    && (at.last == -1 || at.last > 0)
    && if at.todo == [] then p.getLength && p.length == Some(at.last) && p.Bytes() == [] && at.off == 0
       else
         var d := |Header(x, at.todo[0])|;
         && at.off < |Frame(x, at.todo[0])|
         && if at.off <= d then p.getLength && p.length == Some(at.last) && p.Bytes() == Header(x, at.todo[0])[..at.off]
            else && !p.getLength && p.length == Some(|x.encode(at.todo[0])|)
                 && p.Bytes() == x.encode(at.todo[0])[..at.off - d - 1]
  }

  function Commands<C>(cs: seq<C>): seq<Value<C>> {
    if cs == [] then [] else [Command(cs[0])] + Commands(cs[1..])
  }

  /** The commands one by one, and nothing else. */
  lemma {:induction false} CommandsAre<C>(cs: seq<C>)
    ensures |Commands(cs)| == |cs| && (forall i :: 0 <= i < |cs| ==> Commands(cs)[i] == Command(cs[i]))
    ensures Other !in Commands(cs)
  {
    if cs == [] {
    } else {
      CommandsAre(cs[1..]);
    }
  }

  /** From place a to place b the parser has handed over exactly the commands in between, or, if b is not clean, a
      value that is no command. */
  ghost predicate Reaches<C>(x: Codec<C>, d: Drained<C>, todo: seq<C>, at: Place<C>) {
    if Clean(x, at) then Represents(x, d.parser, at) && d.out + Commands(at.todo) == Commands(todo)
    else Other in d.out
  }

  lemma FrameLength<C(!new)>(x: Codec<C>, c: C)
    requires Lawful(x)
    ensures |Frame(x, c)| == |Header(x, c)| + 1 + |x.encode(c)| && |x.encode(c)| >= SHORTEST
    ensures forall i :: 0 <= i < |Header(x, c)| ==> Frame(x, c)[i] == Header(x, c)[i] != NEWLINE
    ensures Frame(x, c)[|Header(x, c)|] == NEWLINE
    ensures Frame(x, c)[|Header(x, c)| + 1..] == x.encode(c)
    ensures IsDigits(Header(x, c)) && Header(x, c) != [] && Header(x, c)[0] != ZERO
    ensures Number(x, Header(x, c)) == Some(|x.encode(c)|)
  {
    DigitsRead(|x.encode(c)|);
  }

  /** An unfinished header: nothing is handed over at a clean place, a number otherwise. */
  lemma PartOfHeader<C(!new)>(x: Codec<C>, p: Parser, at: Place<C>)
    requires Lawful(x) && at.todo != [] && 0 < at.off <= |Header(x, at.todo[0])|
    requires p.buffer == Some(Header(x, at.todo[0])[..at.off]) && p.getLength && p.length == Some(at.last)
    requires at.last == -1 || at.last > 0
    ensures Reaches(x, Drain(x, p), at.todo, at)
  {
    FrameLength(x, at.todo[0]);
    var b := p.buffer.value;
    assert First(b, (c: byte) => c == NEWLINE) == |b|;
    assert ReadHeader(x, p) == p;
    TakesNothing(x, p, at.last, b);
    assert [] + Commands(at.todo) == Commands(at.todo);
  }

  /** Digits are taken for a body when there are enough of them for the stale length. */
  lemma TakesNothing<C(!new)>(x: Codec<C>, p: Parser, last: int, b: seq<byte>)
    requires Lawful(x) && b != [] && IsDigits(b) && b[0] != ZERO && p == Parser(Some(b), true, Some(last))
    requires last == -1 || last > 0
    ensures if |b| < if last < 0 then 2 else last then TakeBody(x, p) == Drained(p, []) else Other in TakeBody(x, p).out
  {
    var u := Upto(b, last);
    if |b| >= if last < 0 then 2 else last {
      assert u != [] && u[0] != ZERO && IsDigits(u);
    } else if |b| >= last {
      assert u == [];
    }
  }

  lemma ReadsHeader<C(!new)>(x: Codec<C>, p: Parser, c: C, more: seq<byte>)
    requires Lawful(x) && p.getLength
    requires p.buffer == Some(Header(x, c) + [NEWLINE] + more)
    ensures ReadHeader(x, p) == Parser(if more == [] then None else Some(more), false, Some(|x.encode(c)|))
  {
    FrameLength(x, c);
    var b := p.buffer.value;
    var d := |Header(x, c)|;
    forall i | 0 <= i < d ensures b[i] != NEWLINE {
      assert b[i] == Header(x, c)[i];
    }
    FirstIs(b, (c: byte) => c == NEWLINE, d);
    assert b[..d] == Header(x, c);
    assert b[d + 1..] == more;
  }

  function Maybe(b: seq<byte>): Option<seq<byte>> {
    if b == [] then None else Some(b)
  }

  lemma AppendSplits(a: seq<byte>, b: seq<byte>, c: seq<byte>, d: seq<byte>)
    requires a + b == c + d
    ensures |a| <= |c| ==> a == c[..|a|]
    ensures |a| >= |c| ==> a == c + a[|c|..] && a[|c|..] + b == d
  {
    assert |a| <= |c| ==> (a + b)[..|a|] == (c + d)[..|a|];
    if |a| >= |c| {
      assert (a + b)[..|c|] == c && (a + b)[|c|..] == d;
      assert a[..|c|] + a[|c|..] == a;
    }
  }

  /** A whole body is handed over as its command. */
  lemma TakesBody<C(!new)>(x: Codec<C>, p: Parser, c: C, more: seq<byte>)
    requires Lawful(x) && p.buffer == Some(x.encode(c) + more) && p.length == Some(|x.encode(c)|)
    ensures var q := Parser(Maybe(more), true, p.length);
            TakeBody(x, p) == if more == [] then Drained(q, [Command(c)])
                              else Drained(Drain(x, q).parser, [Command(c)] + Drain(x, q).out)
  {
    var b := p.buffer.value;
    assert Upto(b, |x.encode(c)|) == x.encode(c);
    assert Clear(b, |x.encode(c)|) == Maybe(more);
  }

  lemma {:induction false} BodyDrains<C(!new)>(x: Codec<C>, p: Parser, last: int, todo: seq<C>,
                                               b: seq<byte>, rest: seq<byte>)
    requires Lawful(x) && todo != [] && (last == -1 || last > 0)
    requires p.buffer == Maybe(b) && !p.getLength && p.length == Some(|x.encode(todo[0])|)
    requires b + rest == x.encode(todo[0]) + Stream(x, todo[1..])
    ensures Reaches(x, TakeBody(x, p), todo, Advance(x, Place(last, todo, |Header(x, todo[0])| + 1), |b|))
    decreases |todo|, 1
  {
    var body := x.encode(todo[0]);
    AppendSplits(b, rest, body, Stream(x, todo[1..]));
    if |b| < |body| {
      PartOfBody(x, p, last, todo, b);
    } else {
      var more := b[|body|..];
      assert |b| == |body| + |more| && Maybe(b) == Some(body + more);
      WholeBody(x, p, last, todo, more, rest);
    }
  }

  lemma PartOfBody<C(!new)>(x: Codec<C>, p: Parser, last: int, todo: seq<C>, b: seq<byte>)
    requires Lawful(x) && todo != [] && (last == -1 || last > 0)
    requires |b| < |x.encode(todo[0])| && b == x.encode(todo[0])[..|b|]
    requires p.buffer == Maybe(b) && !p.getLength && p.length == Some(|x.encode(todo[0])|)
    ensures Reaches(x, TakeBody(x, p), todo, Advance(x, Place(last, todo, |Header(x, todo[0])| + 1), |b|))
  {
    FrameLength(x, todo[0]);
    assert TakeBody(x, p) == Drained(p, []);
    assert [] + Commands(todo) == Commands(todo);
  }

  lemma {:induction false} WholeBody<C(!new)>(x: Codec<C>, p: Parser, last: int, todo: seq<C>,
                                              more: seq<byte>, rest: seq<byte>)
    requires Lawful(x) && todo != [] && (last == -1 || last > 0)
    requires p.buffer == Some(x.encode(todo[0]) + more) && !p.getLength && p.length == Some(|x.encode(todo[0])|)
    requires more + rest == Stream(x, todo[1..])
    ensures Reaches(x, TakeBody(x, p), todo,
                    Advance(x, Place(last, todo, |Header(x, todo[0])| + 1), |x.encode(todo[0])| + |more|))
    decreases |todo|, 0
  {
    var n := |x.encode(todo[0])|;
    var q := Parser(Maybe(more), true, Some(n));
    FrameLength(x, todo[0]);
    TakesBody(x, p, todo[0], more);
    AdvancePast(x, last, todo, |more|);
    if more == [] {
      NothingMore(x, q, n, todo);
    } else {
      HeadDrains(x, q, n, todo[1..], more, rest);
      SomethingMore(x, Drain(x, q), todo, Advance(x, Place(n, todo[1..], 0), |more|));
    }
  }

  lemma AdvancePast<C(!new)>(x: Codec<C>, last: int, todo: seq<C>, m: nat)
    requires Lawful(x) && todo != []
    ensures Advance(x, Place(last, todo, |Header(x, todo[0])| + 1), |x.encode(todo[0])| + m)
         == Advance(x, Place(|x.encode(todo[0])|, todo[1..], 0), m)
  {
    FrameLength(x, todo[0]);
  }

  lemma CommandsHead<C>(todo: seq<C>)
    requires todo != []
    ensures Commands(todo) == [Command(todo[0])] + Commands(todo[1..])
  {
  }

  /** A list of values in front keeps what is said of the rest. */
  lemma Continues<V>(d: seq<V>, e: seq<V>, left: seq<V>, mid: seq<V>, all: seq<V>)
    requires e + left == mid && d + mid == all
    ensures (d + e) + left == all
  {
  }

  lemma NothingMore<C(!new)>(x: Codec<C>, q: Parser, n: nat, todo: seq<C>)
    requires Lawful(x) && todo != [] && n > 0 && q == Parser(None, true, Some(n))
    ensures Reaches(x, Drained(q, [Command(todo[0])]), todo, Advance(x, Place(n, todo[1..], 0), 0))
  {
    CommandsHead(todo);
    if todo[1..] != [] {
      FrameLength(x, todo[1]);
    }
  }

  lemma SomethingMore<C(!new)>(x: Codec<C>, d: Drained<C>, todo: seq<C>, at: Place<C>)
    requires todo != [] && Reaches(x, d, todo[1..], at)
    ensures Reaches(x, Drained(d.parser, [Command(todo[0])] + d.out), todo, at)
  {
    CommandsHead(todo);
    if Clean(x, at) {
      Continues([Command(todo[0])], d.out, Commands(at.todo), Commands(todo[1..]), Commands(todo));
    }
  }

  lemma StreamHead<C(!new)>(x: Codec<C>, todo: seq<C>)
    requires todo != []
    ensures Stream(x, todo) == (Header(x, todo[0]) + [NEWLINE]) + (x.encode(todo[0]) + Stream(x, todo[1..]))
  {
  }

  lemma ShortHead<C(!new)>(x: Codec<C>, p: Parser, last: int, todo: seq<C>, b: seq<byte>)
    requires Lawful(x) && todo != [] && (last == -1 || last > 0)
    requires 0 < |b| <= |Header(x, todo[0])| && b == Header(x, todo[0])[..|b|]
    requires p == Parser(Some(b), true, Some(last))
    ensures Reaches(x, Drain(x, p), todo, Advance(x, Place(last, todo, 0), |b|))
  {
    PartOfHeader(x, p, Place(last, todo, |b|));
    FrameLength(x, todo[0]);
  }

  lemma SameAfterHead<C(!new)>(x: Codec<C>, last: int, todo: seq<C>, m: nat)
    requires todo != []
    ensures Advance(x, Place(last, todo, |Header(x, todo[0])| + 1), m)
         == Advance(x, Place(last, todo, 0), |Header(x, todo[0])| + 1 + m)
  {
  }

  lemma {:induction false} HeadDrains<C(!new)>(x: Codec<C>, p: Parser, last: int, todo: seq<C>,
                                               b: seq<byte>, rest: seq<byte>)
    requires Lawful(x) && b != [] && (last == -1 || last > 0)
    requires p == Parser(Some(b), true, Some(last)) && b + rest == Stream(x, todo)
    ensures Reaches(x, Drain(x, p), todo, Advance(x, Place(last, todo, 0), |b|))
    decreases |todo|, 3
  {
    var c := todo[0];
    var tail := x.encode(c) + Stream(x, todo[1..]);
    StreamHead(x, todo);
    SplitHead(Header(x, c), tail, b, rest);
    if |b| <= |Header(x, c)| {
      ShortHead(x, p, last, todo, b);
    } else {
      var more := b[|Header(x, c)| + 1..];
      assert |b| == |Header(x, c)| + 1 + |more|;
      LongHead(x, p, last, todo, more, rest);
    }
  }

  lemma {:induction false} LongHead<C(!new)>(x: Codec<C>, p: Parser, last: int, todo: seq<C>,
                                             more: seq<byte>, rest: seq<byte>)
    requires Lawful(x) && todo != [] && (last == -1 || last > 0)
    requires p == Parser(Some(Header(x, todo[0]) + [NEWLINE] + more), true, Some(last))
    requires more + rest == x.encode(todo[0]) + Stream(x, todo[1..])
    ensures Reaches(x, Drain(x, p), todo, Advance(x, Place(last, todo, 0), |Header(x, todo[0])| + 1 + |more|))
    decreases |todo|, 2
  {
    ReadsHeader(x, p, todo[0], more);
    assert Drain(x, p) == TakeBody(x, ReadHeader(x, p));
    BodyDrains(x, ReadHeader(x, p), last, todo, more, rest);
    SameAfterHead(x, last, todo, |more|);
  }

  lemma SplitHead(h: seq<byte>, tail: seq<byte>, b: seq<byte>, rest: seq<byte>)
    requires b + rest == (h + [NEWLINE]) + tail
    ensures |b| <= |h| ==> b == h[..|b|]
    ensures |b| > |h| ==> b == h + [NEWLINE] + b[|h| + 1..] && b[|h| + 1..] + rest == tail
  {
    var head := h + [NEWLINE];
    AppendSplits(b, rest, head, tail);
    assert |b| <= |h| ==> head[..|b|] == h[..|b|];
  }

  lemma {:induction false} AdvanceTwice<C(!new)>(x: Codec<C>, at: Place<C>, m: nat, k: nat)
    ensures Advance(x, Advance(x, at, m), k) == Advance(x, at, m + k)
    decreases |at.todo|
  {
    if at.todo == [] {
    } else if at.off + m >= |Frame(x, at.todo[0])| {
      AdvanceTwice(x, Place(|x.encode(at.todo[0])|, at.todo[1..], 0), at.off + m - |Frame(x, at.todo[0])|, k);
    }
  }

  lemma AdvanceFrom<C(!new)>(x: Codec<C>, at: Place<C>, start: nat, m: nat)
    requires at.todo != [] && start <= at.off < |Frame(x, at.todo[0])|
    ensures Advance(x, at.(off := start), at.off - start + m) == Advance(x, at, m)
  {
    AdvanceTwice(x, at.(off := start), at.off - start, m);
  }

  /** What a place leaves to come in. */
  function Unread<C>(x: Codec<C>, at: Place<C>): seq<byte>
    requires at.off <= |Stream(x, at.todo)|
  {
    Stream(x, at.todo)[at.off..]
  }

  lemma RefilledHeader<C(!new)>(x: Codec<C>, p: Parser, at: Place<C>, data: seq<byte>, rest: seq<byte>)
    requires Represents(x, p, at) && at.todo != [] && at.off <= |Header(x, at.todo[0])|
    requires at.off <= |Stream(x, at.todo)| && data + rest == Unread(x, at)
    ensures p.getLength && p.length == Some(at.last) && (p.Bytes() + data) + rest == Stream(x, at.todo)
  {
    var h := Header(x, at.todo[0]) + [NEWLINE];
    StreamHead(x, at.todo);
    Rejoins([], h, x.encode(at.todo[0]) + Stream(x, at.todo[1..]), at.off, data, rest);
    assert h[..at.off] == p.Bytes();
  }

  lemma RefilledBody<C(!new)>(x: Codec<C>, p: Parser, at: Place<C>, data: seq<byte>, rest: seq<byte>)
    requires Represents(x, p, at) && at.todo != [] && at.off > |Header(x, at.todo[0])|
    requires at.off <= |Stream(x, at.todo)| && data + rest == Unread(x, at)
    ensures !p.getLength && p.length == Some(|x.encode(at.todo[0])|)
    ensures |p.Bytes()| == at.off - |Header(x, at.todo[0])| - 1
    ensures (p.Bytes() + data) + rest == x.encode(at.todo[0]) + Stream(x, at.todo[1..])
  {
    var k := at.off - |Header(x, at.todo[0])| - 1;
    StreamHead(x, at.todo);
    Rejoins(Header(x, at.todo[0]) + [NEWLINE], x.encode(at.todo[0]), Stream(x, at.todo[1..]), k, data, rest);
  }

  lemma DataInHeader<C(!new)>(x: Codec<C>, p: Parser, at: Place<C>, data: seq<byte>, rest: seq<byte>)
    requires Lawful(x) && Represents(x, p, at) && at.off <= |Stream(x, at.todo)| && data != []
    requires data + rest == Unread(x, at) && at.todo != [] && at.off <= |Header(x, at.todo[0])|
    ensures Reaches(x, OnData(x, p, data), at.todo, Advance(x, at, |data|))
  {
    var b := p.Bytes() + data;
    RefilledHeader(x, p, at, data, rest);
    HeadDrains(x, p.(buffer := Some(b)), at.last, at.todo, b, rest);
    AdvanceFrom(x, at, 0, |data|);
  }

  lemma Rejoins(head: seq<byte>, body: seq<byte>, tail: seq<byte>, k: nat, data: seq<byte>, rest: seq<byte>)
    requires k <= |body| && data + rest == (head + (body + tail))[|head| + k..]
    ensures body[..k] + data + rest == body + tail
  {
    assert (head + (body + tail))[|head| + k..] == (body + tail)[k..];
    assert (body + tail)[..k] == body[..k];
    assert body[..k] + data + rest == body[..k] + (data + rest);
  }

  lemma DataInBody<C(!new)>(x: Codec<C>, p: Parser, at: Place<C>, data: seq<byte>, rest: seq<byte>)
    requires Lawful(x) && Represents(x, p, at) && at.off <= |Stream(x, at.todo)| && data != []
    requires data + rest == Unread(x, at) && at.todo != [] && at.off > |Header(x, at.todo[0])|
    ensures Reaches(x, OnData(x, p, data), at.todo, Advance(x, at, |data|))
  {
    var d := |Header(x, at.todo[0])|;
    var b := p.Bytes() + data;
    RefilledBody(x, p, at, data, rest);
    BodyDrains(x, p.(buffer := Some(b)), at.last, at.todo, b, rest);
    AdvanceFrom(x, at, d + 1, |data|);
  }

  lemma DataReaches<C(!new)>(x: Codec<C>, p: Parser, at: Place<C>, data: seq<byte>, rest: seq<byte>)
    requires Lawful(x) && Represents(x, p, at) && at.off <= |Stream(x, at.todo)| && data != []
    requires data + rest == Unread(x, at)
    ensures Reaches(x, OnData(x, p, data), at.todo, Advance(x, at, |data|))
  {
    assert |data + rest| > 0;
    assert at.todo != [];
    if at.off <= |Header(x, at.todo[0])| {
      DataInHeader(x, p, at, data, rest);
    } else {
      DataInBody(x, p, at, data, rest);
    }
  }

  // ---------------------------------------------------------------- whole runs

  function Joined(chunks: seq<seq<byte>>): seq<byte> {
    if chunks == [] then [] else chunks[0] + Joined(chunks[1..])
  }

  /** A chunk ends, or the first one starts, after pos bytes. */
  ghost predicate CutAt(chunks: seq<seq<byte>>, pos: nat) {
    exists k :: 0 <= k <= |chunks| && |Joined(chunks[..k])| == pos
  }

  predicate AllClean<C>(x: Codec<C>, at: Place<C>, chunks: seq<seq<byte>>)
    decreases |chunks|
  {
    chunks == [] || (var to := Advance(x, at, |chunks[0]|); Clean(x, to) && AllClean(x, to, chunks[1..]))
  }

  lemma {:induction false} AdvanceUnread<C(!new)>(x: Codec<C>, at: Place<C>, m: nat)
    requires at.off + m <= |Stream(x, at.todo)|
    ensures var to := Advance(x, at, m);
            to.off <= |Stream(x, to.todo)| && Unread(x, to) == Unread(x, at)[m..]
    decreases |at.todo|
  {
    if at.todo == [] {
    } else if at.off + m >= |Frame(x, at.todo[0])| {
      var f := Frame(x, at.todo[0]);
      var next := Place(|x.encode(at.todo[0])|, at.todo[1..], 0);
      AdvanceUnread(x, next, at.off + m - |f|);
      assert Stream(x, at.todo)[|f|..] == Stream(x, at.todo[1..]);
    }
  }

  /** What running the chunks from a place must come to. */
  ghost predicate Fed<C>(x: Codec<C>, d: Drained<C>, at: Place<C>, chunks: seq<seq<byte>>) {
    var to := Advance(x, at, |Joined(chunks)|);
    if AllClean(x, at, chunks) then Represents(x, d.parser, to) && d.out + Commands(to.todo) == Commands(at.todo)
    else Other in d.out
  }

  /** The parser, fed any prefix of what is to come in, represents the rest, or has handed over a stray value. */
  lemma {:induction false} FeedReaches<C(!new)>(x: Codec<C>, p: Parser, at: Place<C>,
                                                chunks: seq<seq<byte>>, rest: seq<byte>)
    requires Lawful(x) && Represents(x, p, at) && at.off <= |Stream(x, at.todo)|
    requires [] !in chunks && Joined(chunks) + rest == Unread(x, at)
    ensures Fed(x, Feed(x, p, chunks), at, chunks)
    decreases |chunks|
  {
    if chunks == [] {
      assert [] + Commands(at.todo) == Commands(at.todo);
    } else {
      FeedOne(x, p, at, chunks, rest);
      var d := OnData(x, p, chunks[0]);
      var next := Advance(x, at, |chunks[0]|);
      if Clean(x, next) {
        FeedReaches(x, d.parser, next, chunks[1..], rest);
      }
      FedOneMore(x, d, Feed(x, d.parser, chunks[1..]), at, chunks);
    }
  }

  lemma FedOneMore<C(!new)>(x: Codec<C>, d: Drained<C>, e: Drained<C>, at: Place<C>, chunks: seq<seq<byte>>)
    requires chunks != []
    requires Reaches(x, d, at.todo, Advance(x, at, |chunks[0]|))
    requires Clean(x, Advance(x, at, |chunks[0]|)) ==> Fed(x, e, Advance(x, at, |chunks[0]|), chunks[1..])
    ensures Fed(x, Drained(e.parser, d.out + e.out), at, chunks)
  {
    var next := Advance(x, at, |chunks[0]|);
    AdvanceChunk(x, at, chunks);
    if AllClean(x, at, chunks) {
      FedClean(x, d, e, at, chunks, next);
    } else {
      assert Other in d.out || Other in e.out;
    }
  }

  lemma FedClean<C(!new)>(x: Codec<C>, d: Drained<C>, e: Drained<C>, at: Place<C>,
                          chunks: seq<seq<byte>>, next: Place<C>)
    requires chunks != [] && next == Advance(x, at, |chunks[0]|)
    requires d.out + Commands(next.todo) == Commands(at.todo)
    requires var to := Advance(x, next, |Joined(chunks[1..])|);
             Represents(x, e.parser, to) && e.out + Commands(to.todo) == Commands(next.todo)
    ensures var to := Advance(x, at, |Joined(chunks)|);
            Represents(x, e.parser, to) && (d.out + e.out) + Commands(to.todo) == Commands(at.todo)
  {
    AdvanceChunk(x, at, chunks);
    Continues(d.out, e.out, Commands(Advance(x, at, |Joined(chunks)|).todo), Commands(next.todo), Commands(at.todo));
  }

  lemma AdvanceChunk<C(!new)>(x: Codec<C>, at: Place<C>, chunks: seq<seq<byte>>)
    requires chunks != []
    ensures Advance(x, at, |Joined(chunks)|) == Advance(x, Advance(x, at, |chunks[0]|), |Joined(chunks[1..])|)
  {
    AdvanceTwice(x, at, |chunks[0]|, |Joined(chunks[1..])|);
  }

  lemma FeedOne<C(!new)>(x: Codec<C>, p: Parser, at: Place<C>, chunks: seq<seq<byte>>, rest: seq<byte>)
    requires Lawful(x) && Represents(x, p, at) && at.off <= |Stream(x, at.todo)|
    requires chunks != [] && chunks[0] != [] && Joined(chunks) + rest == Unread(x, at)
    ensures var next := Advance(x, at, |chunks[0]|);
            && Reaches(x, OnData(x, p, chunks[0]), at.todo, next)
            && next.off <= |Stream(x, next.todo)| && Joined(chunks[1..]) + rest == Unread(x, next)
  {
    var more := Joined(chunks[1..]) + rest;
    Regroups(chunks[0], Joined(chunks[1..]), rest);
    DataReaches(x, p, at, chunks[0], more);
    AdvanceUnread(x, at, |chunks[0]|);
  }

  lemma Regroups(a: seq<byte>, b: seq<byte>, c: seq<byte>)
    ensures (a + b) + c == a + (b + c) && (a + (b + c))[|a|..] == b + c
  {
  }

  // ---------------------------------------------------------------- the round trip

  lemma {:induction false} JoinedPrefix(chunks: seq<seq<byte>>, k: nat)
    requires k <= |chunks|
    ensures |Joined(chunks[..k])| <= |Joined(chunks)|
    ensures 0 < k ==> |Joined(chunks[..k])| == |chunks[0]| + |Joined(chunks[1..][..k - 1])|
    decreases |chunks|
  {
    if k == 0 {
    } else {
      assert chunks[..k][1..] == chunks[1..][..k - 1];
      JoinedPrefix(chunks[1..], k - 1);
    }
  }

  lemma CutsShift(chunks: seq<seq<byte>>, pos: nat)
    requires chunks != []
    ensures CutAt(chunks, pos) <==> pos == 0 || (pos >= |chunks[0]| && CutAt(chunks[1..], pos - |chunks[0]|))
  {
    if CutAt(chunks, pos) {
      var k :| 0 <= k <= |chunks| && |Joined(chunks[..k])| == pos;
      JoinedPrefix(chunks, k);
    }
    if pos == 0 {
      assert Joined(chunks[..0]) == [];
    } else if pos >= |chunks[0]| && CutAt(chunks[1..], pos - |chunks[0]|) {
      var k :| 0 <= k <= |chunks[1..]| && |Joined(chunks[1..][..k])| == pos - |chunks[0]|;
      JoinedPrefix(chunks, k + 1);
    }
  }

  ghost predicate CleanCuts<C>(x: Codec<C>, at: Place<C>, chunks: seq<seq<byte>>) {
    forall pos: nat :: CutAt(chunks, pos) ==> Clean(x, Advance(x, at, pos))
  }

  lemma CleanCutsShift<C(!new)>(x: Codec<C>, at: Place<C>, chunks: seq<seq<byte>>)
    requires chunks != [] && Clean(x, Advance(x, at, 0))
    ensures var to := Advance(x, at, |chunks[0]|);
            CleanCuts(x, at, chunks) <==> Clean(x, Advance(x, to, 0)) && CleanCuts(x, to, chunks[1..])
  {
    var m := |chunks[0]|;
    var to := Advance(x, at, m);
    forall pos: nat ensures Advance(x, to, pos) == Advance(x, at, m + pos) {
      AdvanceTwice(x, at, m, pos);
    }
    if CleanCuts(x, at, chunks) {
      forall pos: nat | CutAt(chunks[1..], pos) ensures Clean(x, Advance(x, to, pos)) {
        CutsShift(chunks, m + pos);
      }
      assert CutAt(chunks[1..], 0) by {
        assert Joined(chunks[1..][..0]) == [];
      }
    } else {
      var pos: nat :| CutAt(chunks, pos) && !Clean(x, Advance(x, at, pos));
      CutsShift(chunks, pos);
      assert Advance(x, to, pos - m) == Advance(x, at, pos);
    }
  }

  lemma {:induction false} AllCleanExactly<C(!new)>(x: Codec<C>, at: Place<C>, chunks: seq<seq<byte>>)
    requires Clean(x, Advance(x, at, 0))
    ensures AllClean(x, at, chunks) <==> CleanCuts(x, at, chunks)
    decreases |chunks|
  {
    if chunks == [] {
      assert forall k :: 0 <= k <= |chunks| ==> chunks[..k] == [];
    } else {
      var to := Advance(x, at, |chunks[0]|);
      AdvanceTwice(x, at, |chunks[0]|, 0);
      CleanCutsShift(x, at, chunks);
      if Clean(x, to) {
        AllCleanExactly(x, to, chunks[1..]);
      }
    }
  }

  /** The end of a stream is a place with nothing left to do. */
  lemma {:induction false} AdvanceToEnd<C(!new)>(x: Codec<C>, last: int, cs: seq<C>)
    ensures var to := Advance(x, Place(last, cs, 0), |Stream(x, cs)|);
            to.todo == [] && to.off == 0
    decreases |cs|
  {
    if cs == [] {
    } else {
      AdvanceToEnd(x, |x.encode(cs[0])|, cs[1..]);
    }
  }

  lemma StartRepresented<C(!new)>(x: Codec<C>, cs: seq<C>)
    requires Lawful(x)
    ensures var at := Place(-1, cs, 0); Advance(x, at, 0) == at && Represents(x, FRESH, at) && Clean(x, at)
  {
    if cs != [] {
      FrameLength(x, cs[0]);
    }
  }

  /** A run over a whole stream, once it is known whether all its cuts are clean. */
  lemma RunEnds<C(!new)>(x: Codec<C>, d: Drained<C>, cs: seq<C>, clean: bool, to: Place<C>)
    requires to.todo == [] && to.off == 0
    requires if clean then Represents(x, d.parser, to) && d.out + Commands(to.todo) == Commands(cs) else Other in d.out
    ensures d.out == Commands(cs) <==> clean
    ensures clean ==> d.parser.Bytes() == [] && d.parser.getLength
  {
    CommandsAre(cs);
    assert d.out + [] == d.out;
  }

  /** The round trip: a stream cut into chunks comes back as exactly its commands, in order, if and only if no cut
      falls where the digits received of a header are at least as many as the last length read (two, before any). */
  lemma RoundTripExactly<C(!new)>(x: Codec<C>, cs: seq<C>, chunks: seq<seq<byte>>)
    requires Lawful(x) && [] !in chunks && Joined(chunks) == Stream(x, cs)
    ensures var d := Feed(x, FRESH, chunks);
            && (d.out == Commands(cs) <==> CleanCuts(x, Place(-1, cs, 0), chunks))
            && (d.out == Commands(cs) ==> d.parser.Bytes() == [] && d.parser.getLength)
  {
    var at := Place(-1, cs, 0);
    StartRepresented(x, cs);
    AllCleanExactly(x, at, chunks);
    FeedAll(x, cs, chunks);
    AdvanceToEnd(x, -1, cs);
    RunEnds(x, Feed(x, FRESH, chunks), cs, AllClean(x, at, chunks), Advance(x, at, |Stream(x, cs)|));
  }

  lemma FeedAll<C(!new)>(x: Codec<C>, cs: seq<C>, chunks: seq<seq<byte>>)
    requires Lawful(x) && [] !in chunks && Joined(chunks) == Stream(x, cs)
    ensures Fed(x, Feed(x, FRESH, chunks), Place(-1, cs, 0), chunks)
  {
    StartRepresented(x, cs);
    assert Stream(x, cs)[0..] == Stream(x, cs);
    assert Joined(chunks) + [] == Joined(chunks);
    FeedReaches(x, FRESH, Place(-1, cs, 0), chunks, []);
  }

  /** In between, the state always represents the unread suffix. */
  lemma SuffixRepresented<C(!new)>(x: Codec<C>, cs: seq<C>, chunks: seq<seq<byte>>, rest: seq<byte>)
    requires Lawful(x) && [] !in chunks && Joined(chunks) + rest == Stream(x, cs)
    requires CleanCuts(x, Place(-1, cs, 0), chunks)
    ensures var d := Feed(x, FRESH, chunks);
            var to := Advance(x, Place(-1, cs, 0), |Joined(chunks)|);
            && Represents(x, d.parser, to) && d.out + Commands(to.todo) == Commands(cs)
            && to.off <= |Stream(x, to.todo)| && Unread(x, to) == rest
  {
    var at := Place(-1, cs, 0);
    StartRepresented(x, cs);
    assert Stream(x, cs)[0..] == Stream(x, cs);
    AllCleanExactly(x, at, chunks);
    FeedReaches(x, FRESH, at, chunks, rest);
    AdvanceUnread(x, at, |Joined(chunks)|);
  }

  // ---------------------------------------------------------------- bodies of ordinary size

  const LIMIT := 10_000_000_000_000 // a body below this has a header shorter than any body

  lemma ShortDigits(n: nat)
    requires n < LIMIT
    ensures |Digits(n)| < SHORTEST
  {
    DigitsBelow(n, 13);
  }

  function Power10(k: nat): nat {
    if k == 0 then 1 else 10 * Power10(k - 1)
  }

  lemma {:induction false} DigitsBelow(n: nat, k: nat)
    requires 0 < k && n < Power10(k)
    ensures |Digits(n)| <= k
  {
    if n < 10 {
    } else {
      DigitsBelow(n / 10, k - 1);
    }
  }

  ghost predicate Short<C>(x: Codec<C>, cs: seq<C>) {
    forall c :: c in cs ==> |x.encode(c)| < LIMIT
  }

  lemma {:induction false} LaterClean<C(!new)>(x: Codec<C>, last: int, cs: seq<C>, m: nat)
    requires Lawful(x) && Short(x, cs) && last >= SHORTEST
    ensures Clean(x, Advance(x, Place(last, cs, 0), m))
    decreases |cs|
  {
    if cs == [] {
    } else {
      ShortDigits(|x.encode(cs[0])|);
      if m >= |Frame(x, cs[0])| {
        LaterClean(x, |x.encode(cs[0])|, cs[1..], m - |Frame(x, cs[0])|);
      }
    }
  }

  lemma OnlyFirstHeader<C(!new)>(x: Codec<C>, cs: seq<C>, pos: nat)
    requires Lawful(x) && Short(x, cs)
    ensures Clean(x, Advance(x, Place(-1, cs, 0), pos)) <==> cs == [] || pos < 2 || pos > |Header(x, cs[0])|
  {
    if cs != [] {
      FrameLength(x, cs[0]);
      if pos >= |Frame(x, cs[0])| {
        LaterClean(x, |x.encode(cs[0])|, cs[1..], pos - |Frame(x, cs[0])|);
      }
    }
  }

  /** With bodies below ten terabytes only the first header matters: the round trip succeeds for a chunking if and
      only if no chunk ends after two or more of its digits and before its newline. */
  lemma RoundTrip<C(!new)>(x: Codec<C>, cs: seq<C>, chunks: seq<seq<byte>>)
    requires Lawful(x) && [] !in chunks && Joined(chunks) == Stream(x, cs) && Short(x, cs)
    ensures Feed(x, FRESH, chunks).out == Commands(cs)
       <==> (cs == [] || forall pos: nat :: CutAt(chunks, pos) ==> pos < 2 || pos > |Header(x, cs[0])|)
  {
    RoundTripExactly(x, cs, chunks);
    forall pos: nat
      ensures Clean(x, Advance(x, Place(-1, cs, 0), pos)) <==> cs == [] || pos < 2 || pos > |Header(x, cs[0])|
    {
      OnlyFirstHeader(x, cs, pos);
    }
  }

  lemma DigitsTwo(n: nat)
    requires n >= 10
    ensures |Digits(n)| >= 2
  {
    DigitsRead(n / 10);
  }

  /** The first two bytes of a frame are digits of its header. */
  lemma FirstTwo<C(!new)>(x: Codec<C>, c: C)
    requires Lawful(x)
    ensures var f := Frame(x, c);
            && |f| > 2 && f[0] != NEWLINE && f[1] != NEWLINE
            && IsDigits(f[..2]) && f[..2][0] != ZERO
  {
    FrameLength(x, c);
    DigitsTwo(|x.encode(c)|);
    assert Frame(x, c)[..2] == Header(x, c)[..2];
  }

  /** A cut after two digits breaks any command: the digits are taken for a body, and what they parse to is handed
      over as if it were one. */
  lemma CutHeaderFails<C(!new)>(x: Codec<C>, c: C)
    requires Lawful(x)
    ensures var f := Frame(x, c);
            && |f| > 2
            && Other in Feed(x, FRESH, [f[..2], f[2..]]).out
            && Feed(x, FRESH, [f[..2], f[2..]]).out != Commands([c])
  {
    var f := Frame(x, c);
    FirstTwo(x, c);
    TakesNothing(x, Parser(Some(f[..2]), true, Some(-1)), -1, f[..2]);
    FirstCutStrays(x, f);
    CommandsAre([c]);
  }

  lemma FirstCutStrays<C(!new)>(x: Codec<C>, f: seq<byte>)
    requires Lawful(x) && |f| > 2 && f[0] != NEWLINE && f[1] != NEWLINE
    requires Other in TakeBody(x, Parser(Some(f[..2]), true, Some(-1))).out
    ensures Other in Feed(x, FRESH, [f[..2], f[2..]]).out
  {
    var p := Parser(Some(f[..2]), true, Some(-1));
    assert FRESH.Bytes() + f[..2] == f[..2];
    assert ReadHeader(x, p) == p;
    assert Drain(x, p) == OnData(x, FRESH, f[..2]);
    assert [f[..2], f[2..]][0] == f[..2];
  }

  /** A whole body that is not JSON is not handed over, stays in the buffer, and a header is expected next. */
  lemma BadBodyStays<C>(x: Codec<C>, p: Parser, n: nat)
    requires x.parse([]) == None && p.buffer.Some? && !p.getLength && p.length == Some(n)
    requires n <= |p.buffer.value| && x.parse(p.buffer.value[..n]) == None
    ensures Drain(x, p) == Drained(Parser(p.buffer, true, p.length), [])
  {
    assert ReadHeader(x, p) == p;
    assert Upto(p.buffer.value, n) == p.buffer.value[..n];
  }

  /** After a header that is not a number nothing is ever handed over again; the bytes pile up. */
  lemma {:induction false} NotANumberStalls<C>(x: Codec<C>, p: Parser, chunks: seq<seq<byte>>)
    requires x.parse([]) == None && !p.getLength && p.length == None
    ensures var d := Feed(x, p, chunks);
            && d.out == [] && !d.parser.getLength && d.parser.length == None
            && d.parser.Bytes() == p.Bytes() + Joined(chunks)
    decreases |chunks|
  {
    if chunks == [] {
    } else {
      StallsOnce(x, p, chunks[0]);
      NotANumberStalls(x, p.(buffer := Some(p.Bytes() + chunks[0])), chunks[1..]);
      Regroups(p.Bytes(), chunks[0], Joined(chunks[1..]));
    }
  }

  lemma StallsOnce<C>(x: Codec<C>, p: Parser, data: seq<byte>)
    requires x.parse([]) == None && !p.getLength && p.length == None
    ensures OnData(x, p, data) == Drained(p.(buffer := Some(p.Bytes() + data)), [])
  {
    var q := p.(buffer := Some(p.Bytes() + data));
    assert ReadHeader(x, q) == q;
    assert TakeBody(x, q) == Drained(q, []);
    assert OnData(x, p, data) == Drain(x, q);
  }

  // ---------------------------------------------------------------- the object

  /** The state object of one connection with its data handler; received is what the command callback was given. */
  class Connection<C(!new)> {
    const codec: Codec<C>
    var bufferBytes: Option<seq<byte>>
    var getLength: bool
    var length: Option<int>
    var received: seq<Value<C>>

    ghost function View(): Parser
      reads this
    {
      Parser(bufferBytes, getLength, length)
    }

    constructor (codec: Codec<C>)
      ensures this.codec == codec && View() == FRESH && received == []
    {
      this.codec := codec;
      bufferBytes, getLength, length, received := None, true, Some(-1), [];
    }

    method GetNewlineIndex(buffer: Option<seq<byte>>) returns (i: int)
      ensures -1 <= i
      ensures i == -1 ==> buffer.None? || NEWLINE !in buffer.value
      ensures i >= 0 ==> buffer.Some? && i < |buffer.value| && i == First(buffer.value, (c: byte) => c == NEWLINE)
    {
      if buffer.Some? {
        for k := 0 to |buffer.value|
          invariant forall j :: 0 <= j < k ==> buffer.value[j] != NEWLINE
        {
          if buffer.value[k] == NEWLINE {
            FirstIs(buffer.value, (c: byte) => c == NEWLINE, k);
            return k;
          }
        }
      }
      i := -1;
    }

    method ReadLength()
      modifies this`bufferBytes, this`getLength, this`length
      ensures View() == ReadHeader(codec, old(View()))
    {
      if getLength {
        var i := GetNewlineIndex(bufferBytes);
        if i > -1 {
          length := Number(codec, bufferBytes.value[..i]);
          getLength := false;
          bufferBytes := Clear(bufferBytes.value, i + 1);
        }
      }
    }

    method ParseCommands() returns (commands: seq<Value<C>>)
      requires codec.parse([]) == None
      modifies this`bufferBytes, this`getLength, this`length
      ensures Drained(View(), commands) == Drain(codec, old(View()))
      decreases |View().Bytes()|
    {
      ReadLength();
      commands := [];
      if bufferBytes.Some? && length.Some? && |bufferBytes.value| >= length.value {
        var cmd := Upto(bufferBytes.value, length.value);
        getLength := true;
        var parsed := codec.parse(cmd);
        if parsed.None? { return; }
        commands := [parsed.value];
        bufferBytes := Clear(bufferBytes.value, length.value);
        if bufferBytes.Some? && |bufferBytes.value| > 0 {
          var rest := ParseCommands();
          commands := commands + rest;
        }
      }
    }

    /** A data event. */
    method Data(data: seq<byte>)
      requires codec.parse([]) == None
      modifies this
      ensures var d := OnData(codec, old(View()), data);
              View() == d.parser && received == old(received) + d.out
    {
      if bufferBytes.Some? && |bufferBytes.value| > 0 {
        bufferBytes := Some(bufferBytes.value + data);
      } else {
        assert [] + data == data;
        bufferBytes := Some(data);
      }
      assert View() == old(View()).(buffer := Some(old(View()).Bytes() + data));
      var commands := ParseCommands();
      received := received + commands;
    }

    /** A run of data events. */
    method DataAll(chunks: seq<seq<byte>>)
      requires codec.parse([]) == None
      modifies this
      ensures var d := Feed(codec, old(View()), chunks);
              View() == d.parser && received == old(received) + d.out
      decreases |chunks|
    {
      if chunks != [] {
        Data(chunks[0]);
        DataAll(chunks[1..]);
      }
    }
  }
}
