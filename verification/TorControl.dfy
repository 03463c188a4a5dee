/**
 The control connection to Tor: replies and asynchronous events on one stream, one
 command outstanding at a time (Tor control protocol, section 2.3).
 */
module TorControl {
  import opened Prelude
  import opened ControlLines
  import opened Numerals

  datatype Reply = Answered(lines: seq<string>) | Failed(code: string) | Closed | TimedOut

  datatype Settled = Settled(command: nat, reply: Reply)

  /** What the events tell: wake-ups of the retry loop are counted. */
  datatype Health = Health(published: set<string>, circuitReady: bool, boot: nat, wakes: nat)

  /** The reply being collected, who waits for it, and the promises settled so far. */
  datatype Dialogue = Dialogue(replies: seq<string>, waiter: Option<nat>, settled: seq<Settled>)

  datatype Control = Control(buffer: string, dialogue: Dialogue, health: Health, stopped: bool)

  const START := Control("", Dialogue([], None, []), Health({}, false, 0, 0), false)

  function Min(a: nat, b: nat): nat {
    if a <= b then a else b
  }

  /** An asynchronous event: flags and wake-ups. */
  function OnEvent(h: Health, line: string, stopped: bool): Health {
    var uploaded := Uploaded(line);
    var announced := uploaded.Some? && uploaded.value !in h.published;
    var h1 := if uploaded.Some? then h.(published := h.published + {uploaded.value}) else h;
    var h2 := if IsEvent(line, "NETWORK_LIVENESS DOWN") then h1.(circuitReady := false, published := {}) else h1;
    var up := (CircuitBuilt(line) || IsEvent(line, "NETWORK_LIVENESS UP")) && !h2.circuitReady;
    var h3 := if up then h2.(circuitReady := true) else h2;
    var progress := if Contains(line, "BOOTSTRAP") then Progress(line, 0) else None;
    var booted := progress.Some? && h3.boot != 100 && Min(100, progress.value) == 100;
    var h4 := if progress.Some? then h3.(boot := Min(100, progress.value)) else h3;
    if (announced || up || booted) && !stopped then h4.(wakes := h4.wakes + 1) else h4
  }

  function Outcome(lines: seq<string>): Reply
    requires lines != [] && IsStatus(lines[|lines| - 1])
  {
    var last := lines[|lines| - 1];
    if StartsWith(last, "250 ") then Answered(lines) else Failed(last[..3])
  }

  function OnReply(d: Dialogue, line: string): Dialogue {
    var lines := d.replies + [line];
    if !IsStatus(line) then d.(replies := lines)
    else if d.waiter.Some? then Dialogue([], None, d.settled + [Settled(d.waiter.value, Outcome(lines))])
    else d.(replies := [])
  }

  predicate IsAsync(line: string) {
    StartsWith(line, "650")
  }

  function OnLine(c: Control, line: string): Control {
    if IsAsync(line) then c.(health := OnEvent(c.health, line, c.stopped))
    else c.(dialogue := OnReply(c.dialogue, line))
  }

  function OnLines(c: Control, lines: seq<string>): (d: Control)
    ensures d.buffer == c.buffer && d.stopped == c.stopped
  {
    if lines == [] then c else OnLine(OnLines(c, lines[..|lines| - 1]), lines[|lines| - 1])
  }

  function OnData(c: Control, chunk: string): Control {
    var (lines, rest) := Cut(c.buffer + chunk);
    OnLines(c, lines).(buffer := rest)
  }

  function OnChunks(c: Control, chunks: seq<string>): Control {
    if chunks == [] then c else OnData(OnChunks(c, chunks[..|chunks| - 1]), chunks[|chunks| - 1])
  }

  /** A command may be written: none waits and the connection is open. */
  predicate CanSend(c: Control) {
    c.dialogue.waiter == None && !c.stopped
  }

  function OnSend(c: Control, id: nat): Control
    requires CanSend(c)
  {
    c.(dialogue := c.dialogue.(waiter := Some(id)))
  }

  /** Whoever still waits gets this reply instead of Tor's. */
  function Dismiss(d: Dialogue, reply: Reply): Dialogue {
    d.(waiter := None, settled := if d.waiter.Some? then d.settled + [Settled(d.waiter.value, reply)] else d.settled)
  }

  function OnClose(c: Control): Control {
    if c.stopped then c
    else c.(stopped := true, health := c.health.(boot := 0), dialogue := Dismiss(c.dialogue, Closed))
  }

  /** 30 seconds without a reply. */
  function OnTimeout(c: Control): Control {
    OnClose(c.(dialogue := Dismiss(c.dialogue, TimedOut)))
  }

  // ----- the imperative reader -----

  class TorTransport {
    var buffer: string
    var replies: seq<string>
    var waiter: Option<nat>
    var settled: seq<Settled>
    var published: set<string>
    var circuitReady: bool
    var boot: nat
    var wakes: nat
    var stopped: bool

    function View(): Control
      reads this
    {
      Control(buffer, Dialogue(replies, waiter, settled), Health(published, circuitReady, boot, wakes), stopped)
    }

    constructor ()
      ensures View() == START
    {
      buffer, replies, waiter, settled := "", [], None, [];
      published, circuitReady, boot, wakes, stopped := {}, false, 0, 0, false;
    }

    method HandleEvent(line: string)
      modifies this
      requires IsAsync(line)
      ensures View() == OnLine(old(View()), line)
    {
      hide Uploaded, IsEvent, CircuitBuilt, Progress, Contains, IsAsync, OnReply;
      var wake := false;
      var uploaded := Uploaded(line);
      if uploaded.Some? {
        wake := uploaded.value !in published;
        published := published + {uploaded.value};
      }
      if IsEvent(line, "NETWORK_LIVENESS DOWN") { circuitReady, published := false, {}; }
      if (CircuitBuilt(line) || IsEvent(line, "NETWORK_LIVENESS UP")) && !circuitReady { circuitReady, wake := true, true; }
      if Contains(line, "BOOTSTRAP") {
        var progress := Progress(line, 0);
        if progress.Some? {
          var next := Min(100, progress.value);
          wake := wake || (boot != 100 && next == 100);
          boot := next;
        }
      }
      if wake && !stopped { wakes := wakes + 1; }
    }

    method HandleReply(line: string)
      modifies this
      requires !IsAsync(line)
      ensures View() == OnLine(old(View()), line)
    {
      hide OnEvent, IsAsync;
      replies := replies + [line];
      if IsStatus(line) {
        var reply := replies;
        replies := [];
        if waiter.Some? {
          settled := settled + [Settled(waiter.value, if StartsWith(line, "250 ") then Answered(reply) else Failed(line[..3]))];
        }
        waiter := None;
      }
    }

    /** The handler of every packet: whatever was cut short waits in the buffer. */
    method Receive(chunk: string)
      modifies this
      ensures View() == OnData(old(View()), chunk)
    {
      hide OnLine, OnLines, Cut, IsAsync;
      NoLines(View());
      ghost var all := buffer + chunk;
      ghost var done: seq<string> := [];
      buffer := buffer + chunk;
      assert done + Cut(buffer).0 == Cut(buffer).0;
      while IndexOfBreak(buffer, 0) >= 0
        invariant View() == OnLines(old(View()), done).(buffer := buffer)
        invariant Cut(all).0 == done + Cut(buffer).0 && Cut(all).1 == Cut(buffer).1
        decreases |buffer|
      {
        CutOne(buffer);
        var end := IndexOfBreak(buffer, 0);
        var line := buffer[..end];
        OneMoreLine(old(View()), done, line);
        assert done + ([line] + Cut(buffer[end + 2..]).0) == done + [line] + Cut(buffer[end + 2..]).0;
        buffer := buffer[end + 2..];
        LineLeavesBuffer(OnLines(old(View()), done), line, buffer);
        done := done + [line];
        if IsAsync(line) {
          HandleEvent(line);
          continue;
        }
        HandleReply(line);
      }
      CutNone(buffer);
      assert done + [] == done;
    }

    /** One command at a time; nothing is written while another waits or after closing. */
    method Command(id: nat) returns (sent: bool)
      modifies this`waiter
      ensures sent <==> CanSend(old(View()))
      ensures View() == if sent then OnSend(old(View()), id) else old(View())
    {
      if waiter.Some? || stopped { return false; }
      waiter := Some(id);
      sent := true;
    }

    /** The timer of the outstanding command: its promise is settled before closing. */
    method Timeout()
      requires waiter.Some?
      modifies this
      ensures View() == OnTimeout(old(View()))
    {
      settled, waiter := settled + [Settled(waiter.value, TimedOut)], None;
      Close();
    }

    /** Closing settles the outstanding command; a second close does nothing. */
    method Close()
      modifies this
      ensures View() == OnClose(old(View()))
    {
      if stopped { return; }
      stopped, boot := true, 0;
      if waiter.Some? { settled := settled + [Settled(waiter.value, Closed)]; }
      waiter := None;
    }
  }

  lemma LineLeavesBuffer(c: Control, line: string, buffer: string)
    ensures OnLine(c.(buffer := buffer), line) == OnLine(c, line).(buffer := buffer)
  {
  }

  lemma NoLines(c: Control)
    ensures OnLines(c, []) == c
  {
  }

  lemma OneMoreLine(c: Control, done: seq<string>, line: string)
    ensures OnLines(c, done + [line]) == OnLine(OnLines(c, done), line)
  {
    assert (done + [line])[..|done|] == done;
  }

  lemma CutOne(text: string)
    requires IndexOfBreak(text, 0) >= 0
    ensures var end := IndexOfBreak(text, 0);
            Cut(text) == ([text[..end]] + Cut(text[end + 2..]).0, Cut(text[end + 2..]).1)
  {
  }

  lemma CutNone(text: string)
    requires IndexOfBreak(text, 0) < 0
    ensures Cut(text) == ([], text)
  {
  }

  // ----- independence of the packets -----

  lemma {:induction false} LinesAppend(c: Control, a: seq<string>, b: seq<string>)
    ensures OnLines(c, a + b) == OnLines(OnLines(c, a), b)
  {
    hide OnLine;
    if b == [] {
      assert a + b == a;
    } else {
      assert (a + b)[..|a + b| - 1] == a + b[..|b| - 1];
      LinesAppend(c, a, b[..|b| - 1]);
    }
  }

  lemma {:induction false} BufferPlaysNoPart(c: Control, lines: seq<string>, buffer: string)
    ensures OnLines(c.(buffer := buffer), lines) == OnLines(c, lines).(buffer := buffer)
  {
    if lines != [] {
      BufferPlaysNoPart(c, lines[..|lines| - 1], buffer);
      LineLeavesBuffer(OnLines(c, lines[..|lines| - 1]), lines[|lines| - 1], buffer);
    }
  }

  lemma TwoPackets(c: Control, a: string, b: string)
    ensures OnData(OnData(c, a), b) == OnData(c, a + b)
  {
    hide Cut, OnLines;
    var text := c.buffer + a;
    assert text + b == c.buffer + (a + b);
    CutAppend(text, b);
    LinesAppend(c, Cut(text).0, Cut(Cut(text).1 + b).0);
    BufferPlaysNoPart(OnLines(c, Cut(text).0), Cut(Cut(text).1 + b).0, Cut(text).1);
  }

  /** However the stream is split into packets, the state and everything settled are the same. */
  lemma {:induction false} PacketsDoNotMatter(c: Control, chunks: seq<string>)
    requires IndexOfBreak(c.buffer, 0) == -1
    ensures OnChunks(c, chunks) == OnData(c, Concat(chunks))
  {
    if chunks == [] {
      CutNone(c.buffer);
      assert c.buffer + "" == c.buffer;
    } else {
      hide OnData, Cut;
      PacketsDoNotMatter(c, chunks[..|chunks| - 1]);
      TwoPackets(c, Concat(chunks[..|chunks| - 1]), chunks[|chunks| - 1]);
    }
  }

  // ----- events and replies do not disturb each other -----

  function Replies(lines: seq<string>): seq<string> {
    if lines == [] then [] else
    var before, line := Replies(lines[..|lines| - 1]), lines[|lines| - 1];
    if IsAsync(line) then before else before + [line]
  }

  /** Events never alter a reply: settled promises depend on the reply lines alone. */
  lemma {:induction false} EventsLeaveReplies(c: Control, lines: seq<string>)
    ensures OnLines(c, lines).dialogue == OnLines(c, Replies(lines)).dialogue
  {
    if lines != [] {
      var before, line := lines[..|lines| - 1], lines[|lines| - 1];
      EventsLeaveReplies(c, before);
      if !IsAsync(line) { assert (Replies(before) + [line])[..|Replies(before)|] == Replies(before); }
    }
  }

  /** The three kinds of event are told apart by the word after the status. */
  lemma EventsAreDistinct(line: string)
    ensures Uploaded(line).Some? ==>
              !IsEvent(line, "NETWORK_LIVENESS DOWN") && !IsEvent(line, "NETWORK_LIVENESS UP") && !CircuitBuilt(line)
    ensures IsEvent(line, "NETWORK_LIVENESS DOWN") ==> !IsEvent(line, "NETWORK_LIVENESS UP") && !CircuitBuilt(line)
  {
    assert IsEvent(line, "HS_DESC UPLOADED ") ==> line[4..21][0] == 'H' && line[4] == 'H';
    assert IsEvent(line, "NETWORK_LIVENESS DOWN") ==>
              line[4..25][0] == 'N' && line[4..25][17] == 'D' && line[4] == 'N' && line[21] == 'D';
    assert IsEvent(line, "NETWORK_LIVENESS UP") ==>
              line[4..23][0] == 'N' && line[4..23][17] == 'U' && line[4] == 'N' && line[21] == 'U';
    assert IsEvent(line, "CIRC ") ==> line[4..9][0] == 'C' && line[4] == 'C';
  }

  /** The retry loop is woken exactly when a service, a circuit or the bootstrap became ready. */
  lemma WakesExactlyOnProgress(h: Health, line: string)
    ensures var g := OnEvent(h, line, false);
            && g.wakes == h.wakes + (if g.published <= h.published && (g.circuitReady ==>
                      h.circuitReady) && (g.boot == 100 ==> h.boot == 100) then 0 else 1)
            && OnEvent(h, line, true) == g.(wakes := h.wakes)
  {
    EventsAreDistinct(line);
    hide Uploaded, IsEvent, CircuitBuilt, Progress, Contains;
  }

  /** What the four events say, whatever follows on their lines. */
  lemma LivenessIsHeeded(h: Health, rest: string, stopped: bool)
    ensures var down := OnEvent(h, "650 NETWORK_LIVENESS DOWN" + rest, stopped); !down.circuitReady && down.published == {}
    ensures var up := OnEvent(h, "650 NETWORK_LIVENESS UP" + rest, stopped); up.circuitReady && up.published == h.published
  {
    hide Progress, Contains;
    var down, up := "650 NETWORK_LIVENESS DOWN" + rest, "650 NETWORK_LIVENESS UP" + rest;
    assert down[0..4] == "650 " && down[4..25] == "NETWORK_LIVENESS DOWN";
    assert up[0..4] == "650 " && up[4..23] == "NETWORK_LIVENESS UP";
    assert IsEvent(down, "NETWORK_LIVENESS DOWN") && IsEvent(up, "NETWORK_LIVENESS UP");
    EventsAreDistinct(down);
    EventsAreDistinct(up);
    hide IsEvent, Uploaded, CircuitBuilt;
  }

  lemma CircuitIsHeeded(h: Health, number: string, rest: string, stopped: bool)
    requires number != "" && AllDigits(number)
    ensures var g := OnEvent(h, "650 CIRC " + number + " BUILT" + rest, stopped); g.circuitReady && g.published == h.published
  {
    hide Progress, Contains, Uploaded;
    var line := "650 CIRC " + number + " BUILT" + rest;
    assert line[0..4] == "650 " && line[4..9] == "CIRC ";
    EndOfNumber("650 CIRC ", number, " BUILT" + rest, 9);
    assert line == "650 CIRC " + number + (" BUILT" + rest);
    var j := 9 + |number|;
    assert line[j..j + 6] == " BUILT";
    assert CircuitBuilt(line);
    EventsAreDistinct(line);
    hide IsEvent, CircuitBuilt;
  }

  lemma EndOfNumber(before: string, number: string, rest: string, i: nat)
    requires AllDigits(number) && rest != "" && !IsDigit(rest[0]) && |before| <= i <= |before| + |number|
    ensures EndOfDigits(before + number + rest, i) == |before| + |number|
    decreases |before| + |number| - i
  {
    var line := before + number + rest;
    if i < |before| + |number| {
      assert line[i] == number[i - |before|];
      EndOfNumber(before, number, rest, i + 1);
    } else {
      assert line[i] == rest[0];
    }
  }

  lemma Inside(before: string, word: string, after: string)
    ensures HasAt(before + word + after, |before|, word)
    ensures forall i :: 0 <= i < |word| ==> (before + word + after)[|before| + i] == word[i]
  {
  }

  lemma WordStarts(line: string, i: nat, word: string)
    requires HasAt(line, i, word) && |word| >= 2
    ensures line[i] == word[0] && line[i + 1] == word[1]
  {
    assert line[i..i + |word|][0] == line[i] && line[i..i + |word|][1] == line[i + 1];
  }

  lemma UploadedTail(before: string, tail: string)
    requires |before| == 77
    requires tail == "" || tail[0] == ' ' || (|tail| >= 6 && tail[..6] == ".onion" && (|tail| == 6 || tail[6] == ' '))
    ensures var line := before + tail;
            var past := if HasAt(line, 77, ".onion") then 83 else 77;
            past == |line| || (past < |line| && line[past] == ' ')
  {
    var line := before + tail;
    if |tail| >= 6 && tail[..6] == ".onion" {
      assert line[77..83] == tail[..6];
    } else if HasAt(line, 77, ".onion") {
      WordStarts(line, 77, ".onion");
    }
  }

  lemma UploadedLine(onion: string, tail: string)
    requires |onion| == 56 && (forall i :: 0 <= i < 56 ==> InBase32(onion[i]))
    requires tail == "" || tail[0] == ' ' || (|tail| >= 6 && tail[..6] == ".onion" && (|tail| == 6 || tail[6] == ' '))
    ensures Uploaded("650 HS_DESC UPLOADED " + onion + tail) == Some(onion)
  {
    var before := "650 HS_DESC UPLOADED ";
    var line := before + onion + tail;
    UploadedTail(before + onion, tail);
    Inside(before, onion, tail);
    assert line[0..4] == "650 " && line[4..21] == "HS_DESC UPLOADED ";
    assert line[21..77] == onion;
    assert forall i :: 21 <= i < 77 ==> line[i] == onion[i - 21];
    hide InBase32;
  }

  /** An upload is announced with or without the suffix, and whatever follows after a space. */
  lemma UploadIsHeeded(h: Health, onion: string, tail: string, stopped: bool)
    requires |onion| == 56 && (forall i :: 0 <= i < 56 ==> InBase32(onion[i]))
    requires tail == "" || tail[0] == ' ' || (|tail| >= 6 && tail[..6] == ".onion" && (|tail| == 6 || tail[6] == ' '))
    ensures var g := OnEvent(h, "650 HS_DESC UPLOADED " + onion + tail, stopped);
            g.published == h.published + {onion} && g.circuitReady == h.circuitReady
  {
    hide Progress, Contains, IsEvent, CircuitBuilt, Uploaded;
    UploadedLine(onion, tail);
    EventsAreDistinct("650 HS_DESC UPLOADED " + onion + tail);
  }

  lemma NotYet(prefix: string, tail: string, j: nat)
    requires prefix == "650 STATUS_CLIENT NOTICE BOOTSTRAP PROGRESS=" && j < 35
    ensures !HasAt(prefix + tail, j, "PROGRESS=")
  {
    assert prefix[j] != 'P' || prefix[j + 1] != 'R';
    assert (prefix + tail)[j] == prefix[j] && (prefix + tail)[j + 1] == prefix[j + 1];
    if HasAt(prefix + tail, j, "PROGRESS=") { WordStarts(prefix + tail, j, "PROGRESS="); }
  }

  lemma ReportedProgress(prefix: string, number: string, rest: string)
    requires prefix == "650 STATUS_CLIENT NOTICE BOOTSTRAP PROGRESS="
    requires number != "" && AllDigits(number) && rest != "" && !IsDigit(rest[0])
    ensures Progress(prefix + number + rest, 35) == Some(ToNumber(number))
  {
    var line := prefix + number + rest;
    assert line[35..44] == "PROGRESS=";
    EndOfNumber(prefix, number, rest, 44);
    assert line[44..44 + |number|] == number;
  }

  lemma SaysBootstrap(prefix: string, tail: string)
    requires prefix == "650 STATUS_CLIENT NOTICE BOOTSTRAP PROGRESS="
    ensures Contains(prefix + tail, "BOOTSTRAP")
  {
    assert (prefix + tail)[25..34] == "BOOTSTRAP";
    assert HasAt(prefix + tail, 25, "BOOTSTRAP");
  }

  lemma BootstrapIsHeeded(h: Health, number: string, rest: string, stopped: bool)
    requires number != "" && AllDigits(number) && rest != "" && !IsDigit(rest[0])
    ensures var g := OnEvent(h, "650 STATUS_CLIENT NOTICE BOOTSTRAP PROGRESS=" + number + rest, stopped);
            g.boot == if ToNumber(number) <= 100 then ToNumber(number) else 100
  {
    hide IsEvent, CircuitBuilt, Uploaded, HasAt, Contains, Progress;
    var prefix := "650 STATUS_CLIENT NOTICE BOOTSTRAP PROGRESS=";
    var line := prefix + number + rest;
    assert prefix + (number + rest) == line;
    SaysBootstrap(prefix, number + rest);
    ReportedProgress(prefix, number, rest);
    forall j: nat | j < 35 ensures !HasAt(line, j, "PROGRESS=") { NotYet(prefix, number + rest, j); }
    SkipTo(line, 0, 35);
  }

  lemma SkipTo(line: string, i: nat, j: nat)
    requires i <= j <= |line| && forall k: nat :: i <= k < j ==> !HasAt(line, k, "PROGRESS=")
    ensures Progress(line, i) == Progress(line, j)
    decreases j - i
  {
    if i < j { SkipTo(line, i + 1, j); }
  }

  // ----- reply k goes to command k -----

  /** The replies contained in a sequence of reply lines: each ends with its status line. */
  function Group(lines: seq<string>): (seq<Reply>, seq<string>) {
    if lines == [] then ([], []) else
    var (done, open) := Group(lines[..|lines| - 1]);
    var line := lines[|lines| - 1];
    if IsStatus(line) then (done + [Outcome(open + [line])], []) else (done, open + [line])
  }

  datatype Step = Send(id: nat) | Line(text: string) | Close | Timeout

  /** The connection with the commands written and the reply lines received while it was open. */
  datatype Session = Session(control: Control, sent: seq<nat>, heard: seq<string>)

  /**
   Commands are written one at a time, and Tor answers no command before it was written.
   The timer runs while a command waits; the connection may close at any time, and
   packets may still be handled afterwards.
   */
  predicate Enabled(s: Session, step: Step) {
    match step
    case Send(_) => CanSend(s.control)
    case Line(text) => s.control.stopped || IsAsync(text) || |Group(s.heard + [text]).0| <= |s.sent|
    case Close => true
    case Timeout => s.control.dialogue.waiter.Some?
  }

  function Apply(s: Session, step: Step): Session
    requires Enabled(s, step)
  {
    match step
    case Send(id) => s.(control := OnSend(s.control, id), sent := s.sent + [id])
    case Line(text) => s.(control := OnLine(s.control, text),
        heard := if IsAsync(text) || s.control.stopped then s.heard else s.heard + [text])
    case Close => s.(control := OnClose(s.control))
    case Timeout => s.(control := OnTimeout(s.control))
  }

  ghost predicate IsRun(s: Session, steps: seq<Step>)
    decreases |steps|
  {
    steps == [] || (Enabled(s, steps[0]) && IsRun(Apply(s, steps[0]), steps[1..]))
  }

  ghost function After(s: Session, steps: seq<Step>): Session
    requires IsRun(s, steps)
    decreases |steps|
  {
    if steps == [] then s else After(Apply(s, steps[0]), steps[1..])
  }

  /** The k-th reply settled the k-th command, and closing settled the one left over. */
  ghost predicate Paired(s: Session) {
    var (done, open) := Group(s.heard);
    var d := s.control.dialogue;
    && |done| <= |s.sent| <= |done| + 1 && |done| <= |d.settled|
    && (forall k :: 0 <= k < |done| ==> d.settled[k] == Settled(s.sent[k], done[k]))
    && if s.control.stopped then
         && d.waiter == None && |d.settled| == |s.sent|
         && (|s.sent| > |done| ==> d.settled[|done|] in {Settled(s.sent[|done|], Closed), Settled(s.sent[|done|], TimedOut)})
       else
         && |d.settled| == |done| && d.replies == open
         && d.waiter == (if |s.sent| > |done| then Some(s.sent[|done|]) else None)
  }

  lemma StepKeepsPaired(s: Session, step: Step)
    requires Paired(s) && Enabled(s, step)
    ensures Paired(Apply(s, step))
  {
    hide IsAsync, OnEvent, IsStatus, OnReply, Group;
    if step.Line? && !IsAsync(step.text) { ReplyKeepsPaired(s, step.text); }
  }

  lemma ReplyKeepsPaired(s: Session, text: string)
    requires Paired(s) && Enabled(s, Line(text)) && !IsAsync(text)
    ensures Paired(Apply(s, Line(text)))
  {
    hide IsAsync, IsStatus, OnEvent;
    assert (s.heard + [text])[..|s.heard|] == s.heard;
  }

  lemma {:induction false} RunKeepsPaired(s: Session, steps: seq<Step>)
    requires Paired(s) && IsRun(s, steps)
    ensures Paired(After(s, steps))
    decreases |steps|
  {
    hide Paired, Enabled, Apply;
    if steps != [] {
      StepKeepsPaired(s, steps[0]);
      RunKeepsPaired(Apply(s, steps[0]), steps[1..]);
    }
  }

  // ----- the replies, told from the lines -----

  /** Three digits and a space: the last line of a reply (Tor control protocol, section 2.3). */
  ghost predicate EndsReply(line: string) {
    |line| >= 4 && line[3] == ' ' && forall j :: 0 <= j < 3 ==> '0' <= line[j] <= '9'
  }

  /** The lines up to, and including, the first that ends a reply. */
  ghost predicate IsOneReply(lines: seq<string>) {
    && lines != [] && EndsReply(lines[|lines| - 1])
    && forall i :: 0 <= i < |lines| - 1 ==> !EndsReply(lines[i])
  }

  function Flat(parts: seq<seq<string>>): seq<string> {
    if parts == [] then [] else Flat(parts[..|parts| - 1]) + parts[|parts| - 1]
  }

  /** The lines are cut after each line that ends a reply; `open` is what is left. */
  ghost predicate AreReplies(lines: seq<string>, parts: seq<seq<string>>, open: seq<string>) {
    && lines == Flat(parts) + open && (forall k :: 0 <= k < |parts| ==> IsOneReply(parts[k]))
    && forall i :: 0 <= i < |open| ==> !EndsReply(open[i])
  }

  /** A reply is a success, with all its lines, exactly if its last line begins with "250 ". */
  ghost predicate IsVerdict(reply: Reply, lines: seq<string>) {
    && lines != [] && |lines[|lines| - 1]| >= 4
    && var last := lines[|lines| - 1];
       reply == if last[..4] == "250 " then Answered(lines) else Failed([last[0], last[1], last[2]])
  }

  lemma OutcomeIsVerdict(lines: seq<string>)
    requires lines != [] && IsStatus(lines[|lines| - 1])
    ensures IsVerdict(Outcome(lines), lines)
  {
    var last := lines[|lines| - 1];
    assert last[..3] == [last[0], last[1], last[2]];
    assert last[0..4] == last[..4];
  }

  ghost predicate AreVerdicts(replies: seq<Reply>, parts: seq<seq<string>>) {
    |replies| == |parts| && forall k :: 0 <= k < |parts| ==> IsVerdict(replies[k], parts[k])
  }

  lemma NextLine(lines: seq<string>, parts: seq<seq<string>>, open: seq<string>, line: string)
    requires AreReplies(lines, parts, open)
    ensures if EndsReply(line) then AreReplies(lines + [line], parts + [open + [line]], [])
            else AreReplies(lines + [line], parts, open + [line])
  {
    hide EndsReply;
    if EndsReply(line) {
      var more := parts + [open + [line]];
      assert more[..|parts|] == parts;
      assert Flat(more) + [] == Flat(parts) + (open + [line]);
      assert IsOneReply(open + [line]);
    }
  }

  lemma {:induction false} GroupsAreVerdicts(lines: seq<string>) returns (parts: seq<seq<string>>)
    ensures AreReplies(lines, parts, Group(lines).1) && AreVerdicts(Group(lines).0, parts)
  {
    parts := [];
    if lines != [] {
      var before, line := lines[..|lines| - 1], lines[|lines| - 1];
      assert lines == before + [line];
      parts := GroupsAreVerdicts(before);
      assert EndsReply(line) <==> IsStatus(line);
      hide EndsReply, IsStatus, IsVerdict, AreReplies;
      var (done, open) := Group(before);
      NextLine(before, parts, open, line);
      if IsStatus(line) {
        OutcomeIsVerdict(open + [line]);
        parts := parts + [open + [line]];
      }
    }
  }

  /** The commands written in a run, and the reply lines that came before the connection closed. */
  function Commands(steps: seq<Step>): seq<nat> {
    if steps == [] then [] else (if steps[0].Send? then [steps[0].id] else []) + Commands(steps[1..])
  }

  function ReplyLines(steps: seq<Step>): seq<string> {
    if steps == [] || steps[0].Close? || steps[0].Timeout? then []
    else if steps[0].Line? && !(|steps[0].text| >= 3 && steps[0].text[..3] == "650")
    then [steps[0].text] + ReplyLines(steps[1..]) else ReplyLines(steps[1..])
  }

  lemma HeardNext(s: Session, step: Step)
    requires Enabled(s, step)
    ensures var v := Apply(s, step);
            && v.sent == s.sent + Commands([step])
            && v.heard == s.heard + (if s.control.stopped then [] else ReplyLines([step]))
            && v.control.stopped == (s.control.stopped || step.Close? || step.Timeout?)
  {
    hide OnEvent, OnReply, Group, IsStatus;
    assert ReplyLines([]) == [] && Commands([]) == [] && [step][1..] == [];
    if step.Line? { assert |step.text| >= 3 ==> step.text[0..3] == step.text[..3]; }
  }

  lemma {:induction false} HeardExactly(s: Session, steps: seq<Step>)
    requires IsRun(s, steps)
    ensures After(s, steps).sent == s.sent + Commands(steps)
    ensures After(s, steps).heard == s.heard + if s.control.stopped then [] else ReplyLines(steps)
    decreases |steps|
  {
    hide Enabled, Apply;
    if steps != [] {
      HeardNext(s, steps[0]);
      HeardExactly(Apply(s, steps[0]), steps[1..]);
      assert [steps[0]][1..] == [] && ReplyLines([]) == [] && Commands([]) == [];
    }
  }

  /**
   On every run the k-th promise settled is that of the k-th command, by Tor's k-th reply
   if there was one and otherwise by the timer or by closing; each command is settled at
   most once, all but the last always, and once the connection is closed all of them. The
   reply lines are cut after each status line, and a reply succeeds exactly when that
   line begins with "250 ".
   */
  lemma RepliesMatchCommands(steps: seq<Step>) returns (parts: seq<seq<string>>, open: seq<string>)
    requires IsRun(Session(START, [], []), steps)
    ensures AreReplies(ReplyLines(steps), parts, open)
    ensures var c := After(Session(START, [], []), steps).control;
            var settled, sent := c.dialogue.settled, Commands(steps);
            && |parts| <= |settled| <= |sent| <= |settled| + (if c.stopped then 0 else 1)
            && forall k :: 0 <= k < |settled| ==>
                 && settled[k].command == sent[k]
                 && (k < |parts| ==> IsVerdict(settled[k].reply, parts[k]))
                 && (k >= |parts| ==> k == |sent| - 1 && c.stopped && (settled[k].reply == Closed || settled[k].reply == TimedOut))
  {
    var s := Session(START, [], []);
    var v := After(s, steps);
    StartIsPaired();
    hide AreReplies, IsVerdict, IsRun, After, Group, Paired, Commands, ReplyLines;
    RunKeepsPaired(s, steps);
    HeardExactly(s, steps);
    assert v.heard == ReplyLines(steps) && v.sent == Commands(steps);
    parts := GroupsAreVerdicts(v.heard);
    open := Group(v.heard).1;
    SettledInOrder(v, parts);
  }

  lemma StartIsPaired()
    ensures Paired(Session(START, [], []))
  {
    assert Group([]) == ([], []);
  }

  lemma SettledInOrder(s: Session, parts: seq<seq<string>>)
    requires Paired(s) && AreVerdicts(Group(s.heard).0, parts)
    ensures var settled := s.control.dialogue.settled;
            && |parts| <= |settled| <= |s.sent| <= |settled| + (if s.control.stopped then 0 else 1)
            && forall k :: 0 <= k < |settled| ==>
                 && settled[k].command == s.sent[k]
                 && (k < |parts| ==> IsVerdict(settled[k].reply, parts[k]))
                 && (k >= |parts| ==>
                       && k == |s.sent| - 1 && s.control.stopped
                       && (settled[k].reply == Closed || settled[k].reply == TimedOut))
  {
    hide Group, IsVerdict;
  }
}
