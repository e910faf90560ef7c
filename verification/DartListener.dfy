/** The Dart side of a streaming session: what a registered stream controller sees (lib/synurang.dart). */
module DartListener {
  import opened Basics
  import opened StreamSession
  import Told = StreamSessionMessages

  /** What happens to the stream controller; a decoded text is given by its UTF-8 bytes. */
  datatype Output = Add(msg: Bytes) | AddError(text: Bytes) | Close

  datatype Listener = Listener(active: bool, outputs: seq<Output>)

  const REGISTERED: Listener := Listener(true, [])

  /**
   * An event as the callback gets it.  The text of an error comes in a buffer without a
   * terminator; `beyond` is what memory holds after it.
   */
  datatype Delivered = Delivered(event: Event, beyond: Bytes)

  // ----- decoding -----

  /** "Unknown stream error" */
  const UNKNOWN: Bytes :=
    [85, 110, 107, 110, 111, 119, 110, 32, 115, 116, 114, 101, 97, 109, 32, 101, 114, 114, 111, 114]

  predicate Follows(b: byte) {
    0x80 <= b <= 0xBF
  }

  /** The length of the first character of a UTF-8 text, or 0 if it is malformed (RFC 3629, section 4). */
  function FirstLength(s: Bytes): (n: nat)
    requires s != []
    ensures n <= |s|
  {
    var b := s[0];
    if b <= 0x7F then 1
    else if |s| >= 2 && 0xC2 <= b <= 0xDF && Follows(s[1]) then 2
    else if |s| >= 3 && 0xE0 <= b <= 0xEF && Follows(s[1]) && Follows(s[2])
            && (b == 0xE0 ==> s[1] >= 0xA0) && (b == 0xED ==> s[1] <= 0x9F) then 3
    else if |s| >= 4 && 0xF0 <= b <= 0xF4 && Follows(s[1]) && Follows(s[2]) && Follows(s[3])
            && (b == 0xF0 ==> s[1] >= 0x90) && (b == 0xF4 ==> s[1] <= 0x8F) then 4
    else 0
  }

  /** Bytes that the decoder accepts; of any others it throws a FormatException. */
  predicate WellFormed(s: Bytes) {
    s == [] || (FirstLength(s) > 0 && WellFormed(s[FirstLength(s)..]))
  }

  const MARK: Bytes := [0xEF, 0xBB, 0xBF]

  /** The decoder drops a byte order mark at the beginning. */
  function Decoded(s: Bytes): Bytes {
    if MARK <= s then s[3..] else s
  }

  /** The bytes before the first zero. */
  function UpToZero(s: Bytes): (r: Bytes)
    ensures r <= s && 0 !in r
    ensures r == s <==> 0 !in s
  {
    if s == [] || s[0] == 0 then [] else [s[0]] + UpToZero(s[1..])
  }

  /** What is decoded: everything up to a zero, wherever that is. */
  function Raw(text: Bytes, beyond: Bytes): Bytes {
    UpToZero(text + beyond)
  }

  /** The callback gets past the text of an error. */
  predicate Readable(text: Bytes, beyond: Bytes) {
    text == [] || WellFormed(Raw(text, beyond))
  }

  /** The text that is handed on. */
  function Shown(text: Bytes, beyond: Bytes): Bytes {
    if text == [] then UNKNOWN else Decoded(Raw(text, beyond))
  }

  // ----- the listener -----

  /** _handleStreamCallback for one event; decoding an error's text comes before everything else. */
  function Handle(l: Listener, d: Delivered): Listener {
    if !l.active then l
    else
      match d.event
      case EvData(m) => if |m| > 0 then l.(outputs := l.outputs + [Add(m)]) else l
      case EvTrailer(_) => l
      case EvEnd => Listener(false, l.outputs + [Close])
      case EvError(t) =>
        if Readable(t, d.beyond) then Listener(false, l.outputs + [AddError(Shown(t, d.beyond)), Close]) else l
  }

  function HandleAll(ds: seq<Delivered>): Listener {
    if ds == [] then REGISTERED else Handle(HandleAll(ds[..|ds|-1]), ds[|ds|-1])
  }

  function Events(ds: seq<Delivered>): seq<Event> {
    seq(|ds|, i requires 0 <= i < |ds| => ds[i].event)
  }

  /** The non-empty payloads among the events, as controller additions. */
  function Additions(ds: seq<Delivered>): seq<Output> {
    if ds == [] then []
    else
      var e := ds[|ds|-1].event;
      Additions(ds[..|ds|-1]) + (if e.EvData? && |e.msg| > 0 then [Add(e.msg)] else [])
  }

  /** An event that ends the listener: END, or an ERROR whose text is empty or well-formed up to a zero. */
  predicate Ends(d: Delivered) {
    d.event.EvEnd? || (d.event.EvError? && Readable(d.event.text, d.beyond))
  }

  /** The part of the outputs that ends the stream. */
  function Ending(ds: seq<Delivered>): seq<Output> {
    if ds == [] || !Ends(ds[|ds|-1]) then []
    else if ds[|ds|-1].event.EvEnd? then [Close]
    else [AddError(Shown(ds[|ds|-1].event.text, ds[|ds|-1].beyond)), Close]
  }

  /**
   * For events in the protocol's order: every non-empty payload in order, then the
   * ending, and the listener is done if and only if the last event is one that ends it.
   */
  lemma {:induction false} ListenerSeesTheStream(ds: seq<Delivered>)
    requires PhaseOf(Events(ds)) != Disordered
    ensures HandleAll(ds).outputs == Additions(ds) + Ending(ds)
    ensures HandleAll(ds).active <==> ds == [] || !Ends(ds[|ds|-1])
    ensures PhaseOf(Events(ds)) != EndedPhase ==> ds == [] || (!ds[|ds|-1].event.EvEnd? && !ds[|ds|-1].event.EvError?)
  {
    if ds != [] {
      var front := ds[..|ds|-1];
      assert Events(ds)[..|ds|-1] == Events(front);
      ListenerSeesTheStream(front);
    }
  }

  lemma {:induction false} RawSplits(text: Bytes, beyond: Bytes)
    ensures Raw(text, beyond) == if 0 in text then UpToZero(text) else text + UpToZero(beyond)
  {
    if text == [] {
      assert text + beyond == beyond;
    } else if text[0] != 0 {
      assert (text + beyond)[1..] == text[1..] + beyond;
      RawSplits(text[1..], beyond);
      assert text == [text[0]] + text[1..];
    }
  }

  /** The first one or two bytes of a byte order mark are not well-formed. */
  lemma PartOfMark(text: Bytes, tail: Bytes)
    requires text != [] && |text| < 3 && MARK <= text + tail
    ensures !WellFormed(text)
  {
    assert text[0] == (text + tail)[0] == 0xEF;
  }

  lemma MarkInFront(text: Bytes)
    ensures WellFormed(MARK + text) <==> WellFormed(text)
  {
    var s := MARK + text;
    assert s[0] == 0xEF && s[1] == 0xBB && s[2] == 0xBF && s[3..] == text;
  }

  /**
   * The listener is told the text that the session ended with exactly when that text is
   * not empty, well-formed and without a zero, and a zero follows it in memory - or,
   * should the text begin with a byte order mark, which the decoder drops, bytes that
   * make up for the mark.
   */
  lemma ErrorTextArrivesIff(text: Bytes, beyond: Bytes)
    ensures Readable(text, beyond) && Shown(text, beyond) == text <==>
      && text != [] && WellFormed(text) && 0 !in text
      && (if MARK <= text then text + UpToZero(beyond) == MARK + text else UpToZero(beyond) == [])
  {
    RawSplits(text, beyond);
    MarkInFront(text);
    if text == [] {
      assert |UNKNOWN| > 0;
    } else if 0 !in text {
      var raw := text + UpToZero(beyond);
      if MARK <= raw {
        assert raw[3..] == text <==> raw == MARK + text;
        if |text| < 3 {
          PartOfMark(text, UpToZero(beyond));
        }
        assert |text| >= 3 ==> text[..3] == raw[..3];
      } else {
        assert raw == text <==> UpToZero(beyond) == [];
      }
    }
  }

  /** What lies behind an unterminated text is read as part of it. */
  lemma TextCanGrow()
    ensures Shown([104, 105], [33, 0]) == [104, 105, 33]
  {
    assert [104, 105] + [33, 0] == [104, 105, 33, 0];
    assert UpToZero([104, 105, 33, 0]) == [104, 105, 33] by {
      assert [104, 105, 33, 0][1..] == [105, 33, 0];
      assert [105, 33, 0][1..] == [33, 0];
      assert [33, 0][1..] == [0];
      assert UpToZero([33, 0]) == [33];
      assert UpToZero([105, 33, 0]) == [105, 33];
    }
  }

  function Closes(outputs: seq<Output>): nat {
    if outputs == [] then 0
    else Closes(outputs[..|outputs|-1]) + (if outputs[|outputs|-1] == Close then 1 else 0)
  }

  lemma ClosesSnoc(o: seq<Output>, x: Output)
    ensures Closes(o + [x]) == Closes(o) + (if x == Close then 1 else 0)
  {
    assert (o + [x])[..|o|] == o;
  }

  /**
   * Whatever events arrive, in any order, the controller is closed at most once and last,
   * and it is closed if and only if one of them ends the listener.
   */
  lemma {:induction false} ClosedAtMostOnce(ds: seq<Delivered>)
    ensures var l := HandleAll(ds);
      && Closes(l.outputs) == (if l.active then 0 else 1)
      && (!l.active ==> l.outputs != [] && l.outputs[|l.outputs|-1] == Close)
      && (l.active <==> forall i | 0 <= i < |ds| :: !Ends(ds[i]))
  {
    if ds != [] {
      var front, d := ds[..|ds|-1], ds[|ds|-1];
      ClosedAtMostOnce(front);
      assert forall i | 0 <= i < |front| :: front[i] == ds[i];
      if HandleAll(front).active {
        HandleCloses(HandleAll(front), d);
      }
    }
  }

  lemma HandleCloses(l: Listener, d: Delivered)
    requires l.active
    ensures var n := Handle(l, d);
      && Closes(n.outputs) == Closes(l.outputs) + (if Ends(d) then 1 else 0)
      && n.active == !Ends(d)
      && (Ends(d) ==> n.outputs != [] && n.outputs[|n.outputs|-1] == Close)
  {
    match d.event
    case EvData(m) => ClosesSnoc(l.outputs, Add(m));
    case EvEnd => ClosesSnoc(l.outputs, Close);
    case EvError(t) =>
      var e := AddError(Shown(t, d.beyond));
      ClosesSnoc(l.outputs, e);
      ClosesSnoc(l.outputs + [e], Close);
      assert l.outputs + [e, Close] == l.outputs + [e] + [Close];
    case EvTrailer(_) =>
  }

  /** The controller is given the messages that are not empty. */
  function Shows(messages: seq<Bytes>): seq<Output> {
    if messages == [] then []
    else
      var m := messages[|messages|-1];
      Shows(messages[..|messages|-1]) + (if |m| > 0 then [Add(m)] else [])
  }

  lemma {:induction false} AdditionsAreData(ds: seq<Delivered>)
    ensures Additions(ds) == Shows(Told.DataOf(Events(ds)))
  {
    if ds != [] {
      var front, e := ds[..|ds|-1], ds[|ds|-1].event;
      AdditionsAreData(front);
      assert Events(ds)[..|ds|-1] == Events(front);
      if e.EvData? {
        var data := Told.DataOf(Events(front));
        assert (data + [e.msg])[..|data|] == data;
      } else {
        assert Told.DataOf(Events(front)) + [] == Told.DataOf(Events(front));
      }
    }
  }

  /**
   * From a Go handler that is the only speaker to the Dart controller, over every
   * interleaving: the controller gets, in order, the messages that are not empty of the
   * SendFromStream calls that found the session open, but for one whose callback is still
   * to come, and then the ending.
   */
  lemma SessionReachesListener(s0: Machine, acts: seq<Act>, s: Machine, ds: seq<Delivered>)
    requires Init(s0) && Exec(s0, acts) == Some(s) && s.soleEnder && s.session.hasCallback && Events(ds) == s.events
    ensures |s.threads| > 0 && |Told.InFlight(s.threads[0])| <= |Told.Passed(s0, acts)|
    ensures var passed := Told.Passed(s0, acts);
      HandleAll(ds).outputs == Shows(passed[..|passed| - |Told.InFlight(s.threads[0])|]) + Ending(ds)
    ensures Closes(HandleAll(ds).outputs) <= 1 && (HandleAll(ds).active <==> ds == [] || !Ends(ds[|ds|-1]))
  {
    StreamSession.InitInv(s0);
    StreamSession.ExecInv(s0, acts);
    ListenerSeesTheStream(ds);
    ClosedAtMostOnce(ds);
    AdditionsAreData(ds);
    Told.DataIsWhatWasSent(s0, acts, s);
    var data, passed := Told.DataOf(s.events), Told.Passed(s0, acts);
    assert passed[..|data|] == data;
  }

  /**
   * A session that ended for good and a listener that never hears of it: the handler
   * ends the stream with an error whose text is a single byte that UTF-8 does not have.
   */
  lemma MalformedErrorIsNeverHeard(beyond: Bytes) returns (s0: Machine, acts: seq<Act>, ds: seq<Delivered>)
    ensures Init(s0) && Exec(s0, acts).Some? && Events(ds) == Exec(s0, acts).value.events
    ensures var x := Exec(s0, acts).value.session;
      x.closed && x.doneCloses == 1 && |ds| == 1 && ds[0].event == EvError([0xFF]) && HandleAll(ds) == REGISTERED
  {
    s0, acts := EndsWithByte();
    ds := [Delivered(EvError([0xFF]), beyond)];
    assert ds[..0] == [];
    assert Raw([0xFF], beyond)[0] == 0xFF by {
      assert ([0xFF] + beyond)[0] == 0xFF;
    }
  }

  lemma EndsWithByte() returns (s0: Machine, acts: seq<Act>)
    ensures Init(s0) && Exec(s0, acts).Some? && Exec(s0, acts).value.events == [EvError([0xFF])]
    ensures Exec(s0, acts).value.session.closed && Exec(s0, acts).value.session.doneCloses == 1
  {
    s0 := Machine(NewSession(true), [Idle], [], [], [], None, None, true, false, false);
    var s;
    s, acts := Extend(s0, s0, [], Begin(0, ErrorStream([0xFF])));
    s, acts := Extend(s0, s, acts, Step(0, Proceed));
    s, acts := Extend(s0, s, acts, Step(0, Proceed));
    s, acts := Extend(s0, s, acts, Step(0, Proceed));
  }
}
