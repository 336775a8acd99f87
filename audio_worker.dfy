/** The audio worker: the thread that owns the sound device and plays one effect for
    every `Play` command the controller sends, in the order they were sent. The
    channel is modelled by what the worker's successive `recv` calls return. */
module AudioWorker {
  import opened Wrappers

  /** The four sound effects, one per mood. */
  datatype Sound = Happy | Calm | Sad | Panic

  /** What the controller sends to the worker. `Stop` exists but does nothing. */
  datatype Command = Play(sound: Sound) | Stop

  /** The asset file the worker plays for a sound. */
  function Asset(s: Sound): (path: string)
    ensures "assets/audio/" <= path
  {
    match s
    case Happy => "assets/audio/happy.mp3"
    case Calm => "assets/audio/calm.mp3"
    case Sad => "assets/audio/sad.mp3"
    case Panic => "assets/audio/panic.mp3"
  }

  /** Each sound has its own asset: the worker never plays one mood's file for another. */
  lemma AssetsDistinct(s: Sound, t: Sound)
    requires s != t
    ensures Asset(s) != Asset(t)
  {
  }

  /** The assets played, in order, for a stream of commands the worker has received:
      one per `Play`, none for `Stop`. */
  function Played(cmds: seq<Command>): (r: seq<string>)
    ensures |r| <= |cmds|
  {
    if cmds == [] then []
    else
      (match cmds[0] case Play(s) => [Asset(s)] case Stop => []) + Played(cmds[1..])
  }

  /** The commands taken by the worker from a sequence of `recv` results, where `None`
      is a failed `recv` (every sender dropped): everything before the first failure. */
  function Received(inbox: seq<Option<Command>>): (r: seq<Command>)
    ensures |r| <= |inbox|
    ensures forall i :: 0 <= i < |r| ==> inbox[i] == Some(r[i])
    ensures |r| < |inbox| ==> inbox[|r|] == None
  {
    if inbox == [] || inbox[0].None? then []
    else [inbox[0].value] + Received(inbox[1..])
  }

  /** What a channel delivers for a sequence of sent commands while a sender is alive. */
  function Deliver(cmds: seq<Command>): (r: seq<Option<Command>>)
    ensures |r| == |cmds| && forall i :: 0 <= i < |r| ==> r[i] == Some(cmds[i])
  {
    seq(|cmds|, i requires 0 <= i < |cmds| => Some(cmds[i]))
  }

  /** The worker's receive loop. `inbox` is what its `recv` calls return, in order;
      `played` is the assets it asks the audio tool to play (a playback failure is
      ignored, so every attempt is listed); `exited` says whether the loop ended at a
      failed `recv` (otherwise the worker is still blocked waiting for more). */
  method RunWorker(inbox: seq<Option<Command>>) returns (played: seq<string>, exited: bool)
    ensures played == Played(Received(inbox))
    ensures exited <==> None in inbox
  {
    played := [];
    var i := 0;
    while i < |inbox| && inbox[i].Some?
      invariant 0 <= i <= |inbox|
      invariant forall j :: 0 <= j < i ==> inbox[j].Some?
      invariant played + Played(Received(inbox[i..])) == Played(Received(inbox))
    {
      var command := inbox[i].value;
      ReceivedStep(inbox, i);
      PlayedAppend([command], Received(inbox[i + 1..]));
      match command {
        case Play(s) =>
          assert Played([command]) == [Asset(s)];
          played := played + [Asset(s)];
        case Stop =>
          assert Played([command]) == [];
      }
      i := i + 1;
    }
    exited := i < |inbox|;
    assert Received(inbox[i..]) == [];
    if !exited {
      assert forall j :: 0 <= j < |inbox| ==> inbox[j].Some?;
    }
  }

  /** One step of the receive loop: a delivered command heads what is received. */
  lemma ReceivedStep(inbox: seq<Option<Command>>, i: nat)
    requires i < |inbox| && inbox[i].Some?
    ensures Received(inbox[i..]) == [inbox[i].value] + Received(inbox[i + 1..])
  {
    assert inbox[i..][1..] == inbox[i + 1..];
  }

  /** The worker hears a concatenation of two streams as the first then the second:
      nothing is reordered. */
  lemma {:induction false} PlayedAppend(a: seq<Command>, b: seq<Command>)
    ensures Played(a + b) == Played(a) + Played(b)
  {
    if a == [] {
      assert a + b == b;
    } else {
      assert (a + b)[0] == a[0];
      assert (a + b)[1..] == a[1..] + b;
      PlayedAppend(a[1..], b);
    }
  }

  /** A `Stop` anywhere in the stream plays nothing and changes nothing else. */
  lemma StopIsSilent(a: seq<Command>, b: seq<Command>)
    ensures Played(a + [Stop] + b) == Played(a + b)
  {
    PlayedAppend(a + [Stop], b);
    PlayedAppend(a, [Stop]);
    PlayedAppend(a, b);
    assert Played([Stop]) == [];
  }

  /** A stream of `Play` commands only is played one asset per command, in send order. */
  lemma {:induction false} PlayedOnlyPlays(cmds: seq<Command>)
    requires forall i :: 0 <= i < |cmds| ==> cmds[i].Play?
    ensures |Played(cmds)| == |cmds|
    ensures forall i :: 0 <= i < |cmds| ==> Played(cmds)[i] == Asset(cmds[i].sound)
  {
    if cmds != [] {
      PlayedOnlyPlays(cmds[1..]);
      assert Played(cmds) == [Asset(cmds[0].sound)] + Played(cmds[1..]);
    }
  }

  /** Once the channel is closed the worker leaves its loop: it takes exactly what was
      sent before the close, and nothing that a later `recv` might return. */
  lemma {:induction false} ReceivedUntilClose(cmds: seq<Command>, later: seq<Option<Command>>)
    ensures Received(Deliver(cmds) + [None] + later) == cmds
  {
    var inbox := Deliver(cmds) + [None] + later;
    if cmds == [] {
      assert inbox[0] == None;
    } else {
      assert inbox[0] == Some(cmds[0]);
      assert inbox[1..] == Deliver(cmds[1..]) + [None] + later;
      ReceivedUntilClose(cmds[1..], later);
    }
  }

  /** A panic sound sent before a sad sound is played before it. */
  lemma PanicThenSad()
    ensures Played([Play(Panic), Play(Sad)]) == ["assets/audio/panic.mp3", "assets/audio/sad.mp3"]
  {
    PlayedOnlyPlays([Play(Panic), Play(Sad)]);
  }
}
