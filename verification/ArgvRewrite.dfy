/** The two argv rewriters of shell sources (media/shell_source.go): the injection of ffmpeg's
    essential flags and the injection of a seek offset. */
module ArgvRewrite {

  type Args = seq<string>

  /** What the stream is for; one with audio counts as audio, whatever else it has. */
  datatype Track = NoTrack | AudioTrack | VideoTrack

  const PIPE := "pipe:1"

  predicate IsFlag(a: string) { |a| > 0 && a[0] == '-' }

  function FlagsOf(args: Args): set<string> {
    set i | 0 <= i < |args| && IsFlag(args[i]) :: args[i]
  }

  predicate HasPipe(args: Args) { PIPE in args || "-" in args }

  /** The position of the first input, or the length. */
  function FirstInput(args: Args): (n: nat)
    ensures n <= |args| && "-i" !in args[..n] && (n < |args| ==> args[n] == "-i")
  {
    if args == [] || args[0] == "-i" then 0
    else
      var n := 1 + FirstInput(args[1..]);
      assert args[..n] == [args[0]] + args[1..][..n - 1];
      n
  }

  lemma {:induction false} FirstInputIs(args: Args, n: nat)
    requires n <= |args| && "-i" !in args[..n] && (n < |args| ==> args[n] == "-i")
    ensures FirstInput(args) == n
  {
    if n > 0 {
      assert args[0] == args[..n][0] && args[1..][..n - 1] == args[..n][1..];
      FirstInputIs(args[1..], n - 1);
    }
  }

  /** A flag that is added with its value unless it, or the flag of the same meaning, is there. */
  datatype Flag = Flag(name: string, same: string, value: Args)

  const INPUT_FLAGS := [
    Flag("-analyzeduration", "-analyzeduration", ["0"]),
    Flag("-probesize", "-probesize", ["64k"]),
    Flag("-err_detect", "-err_detect", ["ignore_err"])]

  const AUDIO_FLAGS := [
    Flag("-c:a", "-acodec", ["libopus"]),
    Flag("-application", "-application", ["audio"]),
    Flag("-frame_duration", "-frame_duration", ["20"]),
    Flag("-page_duration", "-page_duration", ["20000"]),
    Flag("-mapping_family", "-mapping_family", ["0"]),
    Flag("-ar", "-ar", ["48000"]),
    Flag("-ac", "-ac", ["2"]),
    Flag("-f", "-f", ["ogg"])]

  const VIDEO_FLAGS := [
    Flag("-c:v", "-vcodec", ["libvpx", "-deadline", "realtime"]),
    Flag("-f", "-f", ["ivf"])]

  function Want(has: set<string>, f: Flag): Args {
    if f.name in has || f.same in has then [] else [f.name] + f.value
  }

  function Block(has: set<string>, flags: seq<Flag>): Args {
    if flags == [] then [] else Want(has, flags[0]) + Block(has, flags[1..])
  }

  /** What a stream wants: flags in front of the input, if there is one, and flags at the end. */
  datatype Table = Table(inputs: seq<Flag>, outputs: seq<Flag>)

  function TableOf(track: Track): Table {
    Table(INPUT_FLAGS,
          match track
          case AudioTrack => AUDIO_FLAGS
          case VideoTrack => VIDEO_FLAGS
          case NoTrack => [])
  }

  function InputBlock(args: Args, t: Table): Args {
    if "-i" in args then Block(FlagsOf(args), t.inputs) else []
  }

  function OutputBlock(args: Args, t: Table): Args { Block(FlagsOf(args), t.outputs) }

  /** Without the output-pipe tokens. */
  function NoPipe(args: Args): Args {
    if args == [] then [] else Kept(args[0]) + NoPipe(args[1..])
  }

  function Kept(a: string): Args { if a == PIPE then [] else [a] }

  function Ensured(args: Args, t: Table): Args {
    var inputs, outputs := InputBlock(args, t), OutputBlock(args, t);
    if inputs == [] && outputs == [] && HasPipe(args) then args
    else
      var n := FirstInput(args);
      Assembled(args[..n] + inputs + args[n..], HasPipe(args)) + outputs + [PIPE]
  }

  function Assembled(out: Args, hasPipe: bool): Args { if hasPipe then NoPipe(out) else out }

  // ---------------------------------------------------------------- the code

  lemma Associates<T>(a: seq<T>, b: seq<T>, c: seq<T>)
    ensures (a + b) + c == a + (b + c)
  {
  }

  lemma {:induction false} NoPipePlus(a: Args, b: Args)
    ensures NoPipe(a + b) == NoPipe(a) + NoPipe(b)
  {
    if a == [] {
      assert a + b == b;
    } else {
      NoPipePlus(a[1..], b);
      assert a + b == [a[0]] + (a[1..] + b);
      Associates(Kept(a[0]), NoPipe(a[1..]), NoPipe(b));
    }
  }

  /** The in-place filter over the front of the slice it reads: the first `n` cells of `buf` afterwards
      hold what is not the output pipe. */
  method FilterPipes(buf: array<string>) returns (n: nat)
    modifies buf
    ensures n <= buf.Length && buf[..n] == NoPipe(old(buf[..]))
  {
    n := 0;
    for i := 0 to buf.Length
      invariant n <= i
      invariant buf[..n] == NoPipe(old(buf[..])[..i])
      invariant buf[i..] == old(buf[..])[i..]
    {
      var a := buf[i];
      ghost var before := old(buf[..]);
      assert a == before[i] && before[..i + 1] == before[..i] + [a];
      NoPipePlus(before[..i], [a]);
      assert NoPipe([a]) == Kept(a) + NoPipe([a][1..]);
      ghost var was := buf[..];
      if a != PIPE {
        buf[n] := a;
        n := n + 1;
        assert buf[..n] == was[..n - 1] + [a];
      }
      assert buf[i + 1..] == was[i + 1..] == was[i..][1..];
    }
    assert old(buf[..])[..buf.Length] == old(buf[..]);
  }

  method FindInput(args: Args) returns (idx: int)
    ensures idx == if "-i" in args then FirstInput(args) else -1
    ensures FirstInput(args) == |args| <==> "-i" !in args
  {
    for i := 0 to |args|
      invariant "-i" !in args[..i]
    {
      if args[i] == "-i" {
        FirstInputIs(args, i);
        return i;
      }
    }
    FirstInputIs(args, |args|);
    assert args[..|args|] == args;
    idx := -1;
  }

  method ScanFlags(args: Args) returns (has: set<string>, hasPipe: bool)
    ensures has == FlagsOf(args) && hasPipe == HasPipe(args)
  {
    has, hasPipe := {}, false;
    for i := 0 to |args|
      invariant has == FlagsOf(args[..i]) && hasPipe == HasPipe(args[..i])
    {
      assert args[..i + 1] == args[..i] + [args[i]];
      if IsFlag(args[i]) {
        has := has + {args[i]};
      }
      if args[i] == PIPE || args[i] == "-" {
        hasPipe := true;
      }
    }
    assert args[..|args|] == args;
  }

  method EnsureFFmpegFlags(args: Args, track: Track) returns (out: Args)
    ensures out == Ensured(args, TableOf(track))
  {
    out := EnsureFlags(args, TableOf(track));
  }

  method EnsureFlags(args: Args, t: Table) returns (out: Args)
    ensures out == Ensured(args, t)
  {
    var has, hasPipe := ScanFlags(args);
    var inputIdx := FindInput(args);
    var inputs := if inputIdx >= 0 then Block(has, t.inputs) else [];
    var outputs := Block(has, t.outputs);
    if inputs == [] && outputs == [] && hasPipe {
      return args;
    }
    if inputIdx < 0 {
      out := args;
      assert out == args[..|args|] + inputs + args[|args|..];
    } else {
      out := args[..inputIdx] + inputs + args[inputIdx..];
    }
    if hasPipe {
      var buf := new string[|out|](i requires 0 <= i < |out| => out[i]);
      assert buf[..] == out;
      var n := FilterPipes(buf);
      out := buf[..n];
    }
    out := out + outputs + [PIPE];
  }

  // ---------------------------------------------------------------- one block in, one block at the end

  lemma {:induction false} NoPipeMembers(args: Args, a: string)
    ensures a in NoPipe(args) <==> a in args && a != PIPE
  {
    if args != [] {
      NoPipeMembers(args[1..], a);
      assert a in args <==> a == args[0] || a in args[1..];
    }
  }

  lemma {:induction false} NoPipeKeeps(args: Args)
    requires PIPE !in args
    ensures NoPipe(args) == args
  {
    if args != [] {
      assert args[0] in args && forall a | a in args[1..] :: a in args;
      NoPipeKeeps(args[1..]);
    }
  }

  lemma NoPipeTwice(args: Args)
    ensures NoPipe(NoPipe(args)) == NoPipe(args)
  {
    NoPipeMembers(args, PIPE);
    NoPipeKeeps(NoPipe(args));
  }

  lemma NoPipeLast()
    ensures NoPipe([PIPE]) == []
  {
    assert NoPipe([PIPE]) == [] + NoPipe([PIPE][1..]);
  }

  lemma NoPipeOfThree(a: Args, b: Args, c: Args)
    ensures NoPipe(a + b + c) == NoPipe(a) + NoPipe(b) + NoPipe(c)
  {
    NoPipePlus(a + b, c);
    NoPipePlus(a, b);
  }

  /** Neither an output pipe nor an input. */
  predicate TameToken(a: string) {
    |a| > 0 && a[0] != 'p' && !(|a| > 1 && a[0] == '-' && a[1] == 'i')
  }

  predicate TameFlag(f: Flag) {
    && IsFlag(f.name) && IsFlag(f.same) && TameToken(f.name)
    && forall i | 0 <= i < |f.value| :: TameToken(f.value[i])
  }

  predicate TameFlags(flags: seq<Flag>) { forall i | 0 <= i < |flags| :: TameFlag(flags[i]) }

  predicate TameTable(t: Table) { TameFlags(t.inputs) && TameFlags(t.outputs) }

  predicate Tame(args: Args) { forall i | 0 <= i < |args| :: TameToken(args[i]) }

  lemma TheTablesAreTame(track: Track)
    ensures TameTable(TableOf(track))
  {
    InputsAreTame();
    match track
    case AudioTrack => AudioIsTame();
    case VideoTrack => VideoIsTame();
    case NoTrack =>
  }

  lemma InputsAreTame()
    ensures TameFlags(INPUT_FLAGS)
  {
  }

  lemma AudioIsTame()
    ensures TameFlags(AUDIO_FLAGS)
  {
    assert AUDIO_FLAGS == AUDIO_FLAGS[..4] + AUDIO_FLAGS[4..];
    assert TameFlags(AUDIO_FLAGS[..4]);
    assert TameFlags(AUDIO_FLAGS[4..]);
  }

  lemma VideoIsTame()
    ensures TameFlags(VIDEO_FLAGS)
  {
  }

  lemma {:induction false} BlockIsTame(has: set<string>, flags: seq<Flag>)
    requires TameFlags(flags)
    ensures Tame(Block(has, flags))
  {
    if flags != [] {
      assert TameFlag(flags[0]);
      BlockIsTame(has, flags[1..]);
    }
  }

  lemma TameMembers(args: Args)
    requires Tame(args)
    ensures PIPE !in args && "-i" !in args
  {
    assert PIPE[0] == 'p' && "-i"[0] == '-' && "-i"[1] == 'i';
  }

  lemma BlocksAreTame(args: Args, t: Table)
    requires TameTable(t)
    ensures PIPE !in InputBlock(args, t) && "-i" !in InputBlock(args, t)
    ensures PIPE !in OutputBlock(args, t) && "-i" !in OutputBlock(args, t)
  {
    BlockIsTame(FlagsOf(args), t.inputs);
    BlockIsTame(FlagsOf(args), t.outputs);
    TameMembers(InputBlock(args, t));
    TameMembers(OutputBlock(args, t));
  }

  lemma NoPipeOfEnsured(out: Args, outputs: Args, hasPipe: bool)
    ensures NoPipe(Assembled(out, hasPipe) + outputs + [PIPE]) == NoPipe(out) + NoPipe(outputs)
  {
    NoPipeTwice(out);
    NoPipeLast();
    NoPipeOfThree(Assembled(out, hasPipe), outputs, [PIPE]);
  }

  lemma TwoBlocks(args: Args, t: Table)
    requires TameTable(t)
    ensures var n := FirstInput(args);
            NoPipe(Ensured(args, t)) ==
            NoPipe(args[..n]) + InputBlock(args, t) + NoPipe(args[n..]) + OutputBlock(args, t)
  {
    var n := FirstInput(args);
    var inputs, outputs := InputBlock(args, t), OutputBlock(args, t);
    BlocksAreTame(args, t);
    NoPipeKeeps(inputs);
    NoPipeKeeps(outputs);
    NoPipeOfThree(args[..n], inputs, args[n..]);
    NoPipeOfEnsured(args[..n] + inputs + args[n..], outputs, HasPipe(args));
    if inputs == [] && outputs == [] && HasPipe(args) {
      assert args[..n] + inputs + args[n..] == args;
    }
  }

  /** Ignoring output-pipe tokens, the arguments are left as they are but for one block before the first
      `-i` and one at the end, and the output pipe then comes last. */
  lemma OnlyTwoBlocks(args: Args, track: Track)
    ensures var t, n := TableOf(track), FirstInput(args);
            var e := Ensured(args, t);
            && NoPipe(e) == NoPipe(args[..n]) + InputBlock(args, t) + NoPipe(args[n..]) + OutputBlock(args, t)
            && (e == args || e[|e| - 1] == PIPE)
  {
    TheTablesAreTame(track);
    TwoBlocks(args, TableOf(track));
  }

  /** The arguments left alone, or built up, from a block for the input, if there is one, and one for the
      output: exactly in the first case nothing is wanted and some token names
      the output pipe, as `pipe:1` or `-`. Else every `pipe:1` goes and one comes last. */
  lemma EnsuredExactly(args: Args, track: Track)
    ensures var t, n := TableOf(track), FirstInput(args);
            var inputs, outputs := InputBlock(args, t), OutputBlock(args, t);
            var piped := "pipe:1" in args || "-" in args;
            && inputs == (if "-i" in args then Block(FlagsOf(args), t.inputs) else [])
            && outputs == Block(FlagsOf(args), t.outputs)
            && Ensured(args, t) ==
            if inputs == [] && outputs == [] && piped then args
            else if piped then NoPipe(args[..n]) + inputs + NoPipe(args[n..]) + outputs + ["pipe:1"]
            else args[..n] + inputs + args[n..] + outputs + ["pipe:1"]
  {
    var t, n := TableOf(track), FirstInput(args);
    TheTablesAreTame(track);
    BlocksAreTame(args, t);
    NoPipeKeeps(InputBlock(args, t));
    NoPipeOfThree(args[..n], InputBlock(args, t), args[n..]);
  }

  // ---------------------------------------------------------------- what is wanted

  function Unless(given: bool, block: Args): Args { if given then [] else block }

  /** A flag is added with its value right behind it, unless it or its synonym is among the arguments. */
  lemma WantIs(args: Args, f: Flag)
    requires IsFlag(f.name) && IsFlag(f.same)
    ensures Want(FlagsOf(args), f) == Unless(f.name in args || f.same in args, [f.name] + f.value)
  {
  }

  lemma BlockFrom(args: Args, flags: seq<Flag>, i: nat)
    requires i < |flags| && IsFlag(flags[i].name) && IsFlag(flags[i].same)
    ensures Block(FlagsOf(args), flags[i..]) ==
            Unless(flags[i].name in args || flags[i].same in args, [flags[i].name] + flags[i].value)
            + Block(FlagsOf(args), flags[i + 1..])
  {
    WantIs(args, flags[i]);
    assert flags[i..][1..] == flags[i + 1..];
  }

  /** What a block adds, flag by flag of the track's table and in its order. */
  lemma FlagsAreAdded(args: Args, track: Track, flags: seq<Flag>, i: nat)
    requires flags == TableOf(track).inputs || flags == TableOf(track).outputs
    requires i <= |flags|
    ensures Block(FlagsOf(args), flags[i..]) ==
            if i == |flags| then []
            else Unless(flags[i].name in args || flags[i].same in args, [flags[i].name] + flags[i].value)
                 + Block(FlagsOf(args), flags[i + 1..])
    ensures flags[0..] == flags
  {
    TheTablesAreTame(track);
    if i < |flags| {
      assert TameFlag(flags[i]);
      BlockFrom(args, flags, i);
    }
  }

  // ---------------------------------------------------------------- idempotence

  lemma {:induction false} BlockGivesFlags(has: set<string>, flags: seq<Flag>, i: nat)
    requires i < |flags|
    ensures flags[i].name in has || flags[i].same in has || flags[i].name in Block(has, flags)
  {
    if i > 0 {
      BlockGivesFlags(has, flags[1..], i - 1);
    }
  }

  lemma {:induction false} NothingWanted(has: set<string>, flags: seq<Flag>)
    requires forall i | 0 <= i < |flags| :: flags[i].name in has || flags[i].same in has
    ensures Block(has, flags) == []
  {
    if flags != [] {
      NothingWanted(has, flags[1..]);
    }
  }

  /** Once a block has been added, with whatever was there before, it is not wanted again. */
  lemma BlockOnce(has: set<string>, has': set<string>, flags: seq<Flag>)
    requires has <= has' && TameFlags(flags)
    requires forall a | a in Block(has, flags) && IsFlag(a) :: a in has'
    ensures Block(has', flags) == []
  {
    forall i | 0 <= i < |flags|
      ensures flags[i].name in has' || flags[i].same in has'
    {
      assert TameFlag(flags[i]);
      BlockGivesFlags(has, flags, i);
    }
    NothingWanted(has', flags);
  }

  lemma EnsuredMembers(args: Args, t: Table, a: string)
    requires TameTable(t) && a != PIPE
    ensures a in Ensured(args, t) <==> a in args || a in InputBlock(args, t) || a in OutputBlock(args, t)
  {
    var n := FirstInput(args);
    TwoBlocks(args, t);
    NoPipeMembers(Ensured(args, t), a);
    SplitMembers(args, n, InputBlock(args, t), OutputBlock(args, t), a);
  }

  lemma SplitMembers(args: Args, n: nat, b: Args, d: Args, a: string)
    requires n <= |args| && a != PIPE
    ensures a in NoPipe(args[..n]) + b + NoPipe(args[n..]) + d <==> a in args || a in b || a in d
  {
    NoPipeMembers(args[..n], a);
    NoPipeMembers(args[n..], a);
    MembersOfFour(NoPipe(args[..n]), b, NoPipe(args[n..]), d, a);
    assert a in args <==> a in args[..n] || a in args[n..] by {
      assert args == args[..n] + args[n..];
    }
  }

  lemma MembersOfFour(a: Args, b: Args, c: Args, d: Args, x: string)
    ensures x in a + b + c + d <==> x in a || x in b || x in c || x in d
  {
  }

  lemma FlagsKept(args: Args, t: Table)
    requires TameTable(t)
    ensures FlagsOf(args) <= FlagsOf(Ensured(args, t))
    ensures forall a | a in InputBlock(args, t) && IsFlag(a) :: a in FlagsOf(Ensured(args, t))
    ensures forall a | a in OutputBlock(args, t) && IsFlag(a) :: a in FlagsOf(Ensured(args, t))
  {
    forall a | IsFlag(a) && (a in args || a in InputBlock(args, t) || a in OutputBlock(args, t))
      ensures a in FlagsOf(Ensured(args, t))
    {
      assert a[0] != PIPE[0];
      EnsuredMembers(args, t, a);
    }
  }

  lemma InputKept(args: Args, t: Table)
    requires TameTable(t)
    ensures "-i" in Ensured(args, t) <==> "-i" in args
  {
    BlocksAreTame(args, t);
    assert "-i"[0] != PIPE[0];
    EnsuredMembers(args, t, "-i");
  }

  lemma EnsuredOnce(args: Args, t: Table)
    requires TameTable(t)
    ensures Ensured(Ensured(args, t), t) == Ensured(args, t)
  {
    var e := Ensured(args, t);
    if e != args {
      assert e[|e| - 1] == PIPE;
      FlagsKept(args, t);
      InputKept(args, t);
      BlockOnce(FlagsOf(args), FlagsOf(e), t.outputs);
      if "-i" in args {
        BlockOnce(FlagsOf(args), FlagsOf(e), t.inputs);
      }
    }
  }

  /** Ensuring the flags twice is ensuring them once. */
  lemma EnsuredIsIdempotent(args: Args, track: Track)
    ensures Ensured(Ensured(args, TableOf(track)), TableOf(track)) == Ensured(args, TableOf(track))
  {
    TheTablesAreTame(track);
    EnsuredOnce(args, TableOf(track));
  }

  // ---------------------------------------------------------------- the seek offset

  /** The arguments from the first input that is kept on, if any. */
  function FromInput(args: Args): Args
    decreases |args|
  {
    if args == [] then []
    else if args[0] == "-ss" && |args| > 1 then FromInput(args[2..])
    else if args[0] == "-i" then args
    else FromInput(args[1..])
  }

  /** What is kept in front of that input. A seek goes, and takes whatever follows it along; one at the
      very end stays. */
  function BeforeInput(args: Args): Args
    decreases |args|
  {
    if args == [] then []
    else if args[0] == "-ss" && |args| > 1 then BeforeInput(args[2..])
    else if args[0] == "-i" then []
    else [args[0]] + BeforeInput(args[1..])
  }

  /** The seek goes in front of the first input that is kept, or else of everything. */
  function Sought(args: Args, offset: string): Args {
    if FromInput(args) == [] then ["-ss", offset] + BeforeInput(args)
    else BeforeInput(args) + ["-ss", offset] + FromInput(args)
  }

  /** How far the scan is when the arguments from `rest` on are still to be read: no input was kept yet,
      or one was, at position `inputIdx` of what is kept. */
  ghost predicate Scanned(args: Args, rest: Args, cleaned: Args, inputIdx: int) {
    if inputIdx < 0 then
      BeforeInput(args) == cleaned + BeforeInput(rest) && FromInput(args) == FromInput(rest)
    else
      && inputIdx < |cleaned|
      && BeforeInput(args) == cleaned[..inputIdx]
      && FromInput(args) == cleaned[inputIdx..] + rest
  }

  lemma ScanKeeps(args: Args, rest: Args, cleaned: Args, inputIdx: int)
    requires rest != [] && Scanned(args, rest, cleaned, inputIdx)
    requires inputIdx < 0 ==> rest[0] != "-i" && !(rest[0] == "-ss" && |rest| > 1)
    ensures Scanned(args, rest[1..], cleaned + [rest[0]], inputIdx)
  {
    if inputIdx < 0 {
      Associates(cleaned, [rest[0]], BeforeInput(rest[1..]));
    } else {
      Associates(cleaned[inputIdx..], [rest[0]], rest[1..]);
      assert (cleaned + [rest[0]])[inputIdx..] == cleaned[inputIdx..] + [rest[0]];
      assert rest == [rest[0]] + rest[1..];
    }
  }

  lemma ScanFindsInput(args: Args, rest: Args, cleaned: Args)
    requires rest != [] && rest[0] == "-i" && Scanned(args, rest, cleaned, -1)
    ensures Scanned(args, rest[1..], cleaned + [rest[0]], |cleaned|)
  {
    assert cleaned + [] == cleaned;
    assert rest == [rest[0]] + rest[1..];
  }

  method InjectSeek(args: Args, offset: string) returns (out: Args)
    ensures out == Sought(args, offset)
  {
    var cleaned: Args := [];
    var inputIdx := -1;
    var skip := false;
    for i := 0 to |args|
      invariant skip ==> inputIdx < 0 && i < |args|
      invariant inputIdx >= -1
      invariant Scanned(args, args[if skip then i + 1 else i..], cleaned, inputIdx)
    {
      var a := args[i];
      if skip {
        skip := false;
        continue;
      }
      ghost var rest := args[i..];
      assert rest[0] == a && rest[1..] == args[i + 1..];
      if a == "-ss" && inputIdx < 0 && i + 1 < |args| {
        assert rest[2..] == args[i + 2..];
        skip := true;
        continue;
      }
      if a == "-i" && inputIdx < 0 {
        ScanFindsInput(args, rest, cleaned);
        inputIdx := |cleaned|;
      } else {
        ScanKeeps(args, rest, cleaned, inputIdx);
      }
      cleaned := cleaned + [a];
    }
    assert Scanned(args, [], cleaned, inputIdx);
    if inputIdx < 0 {
      return ["-ss", offset] + cleaned;
    }
    out := cleaned[..inputIdx] + ["-ss", offset] + cleaned[inputIdx..];
  }

  /** Nothing in front of the kept input is an input, or a seek unless it is the very last argument. */
  predicate Plain(args: Args) {
    forall i | 0 <= i < |args| :: args[i] != "-i" && (args[i] == "-ss" ==> i == |args| - 1)
  }

  lemma {:induction false} BeforeIsPlain(args: Args)
    ensures Plain(BeforeInput(args))
    ensures FromInput(args) != [] ==> "-ss" !in BeforeInput(args) && FromInput(args)[0] == "-i"
    decreases |args|
  {
    if args != [] {
      if args[0] == "-ss" && |args| > 1 {
        BeforeIsPlain(args[2..]);
      } else if args[0] != "-i" {
        BeforeIsPlain(args[1..]);
      }
    }
  }

  lemma {:induction false} PlainIsKept(pre: Args, rest: Args)
    requires Plain(pre) && (rest != [] ==> "-ss" !in pre)
    ensures BeforeInput(pre + rest) == pre + BeforeInput(rest) && FromInput(pre + rest) == FromInput(rest)
    decreases |pre|
  {
    if pre == [] {
      assert pre + rest == rest;
    } else {
      assert forall a | a in pre[1..] :: a in pre;
      assert pre[0] == "-ss" ==> pre[0] in pre;
      PlainIsKept(pre[1..], rest);
      assert (pre + rest)[1..] == pre[1..] + rest;
    }
  }

  predicate NoSeekNoInput(args: Args) { "-ss" !in args && "-i" !in args }

  /** What is kept: in front of the first input everything but seeks, each of which goes with whatever
      follows it, and from that input on everything. A seek at the very end stays. */
  lemma KeptExactly(pre: Args, x: string, rest: Args)
    requires NoSeekNoInput(pre)
    ensures BeforeInput(pre) == pre && FromInput(pre) == []
    ensures BeforeInput(pre + ["-ss"]) == pre + ["-ss"] && FromInput(pre + ["-ss"]) == []
    ensures BeforeInput(pre + (["-i"] + rest)) == pre && FromInput(pre + (["-i"] + rest)) == ["-i"] + rest
    ensures BeforeInput(pre + (["-ss", x] + rest)) == pre + BeforeInput(rest)
    ensures FromInput(pre + (["-ss", x] + rest)) == FromInput(rest)
  {
    assert forall i | 0 <= i < |pre| :: pre[i] in pre;
    PlainIsKept(pre, []);
    assert pre + [] == pre;
    PlainIsKept(pre, ["-ss"]);
    assert BeforeInput(["-ss"]) == ["-ss"] + BeforeInput(["-ss"][1..]);
    PlainIsKept(pre, ["-i"] + rest);
    PlainIsKept(pre, ["-ss", x] + rest);
    SeekIsSkipped(x, rest);
  }

  /** The last seek wins: a second injection replaces the first. */
  lemma LastSeekWins(args: Args, a: string, b: string)
    ensures Sought(Sought(args, a), b) == Sought(args, b)
  {
    var pre, rest := BeforeInput(args), FromInput(args);
    BeforeIsPlain(args);
    if rest == [] {
      SeekIsSkipped(a, pre);
      PlainIsKept(pre, []);
      assert pre + [] == pre;
    } else {
      SeekIsSkipped(a, rest);
      assert pre + ["-ss", a] + rest == pre + (["-ss", a] + rest);
      PlainIsKept(pre, ["-ss", a] + rest);
      assert BeforeInput(rest) == [] && FromInput(rest) == rest;
      assert pre + [] == pre;
    }
  }

  lemma SeekIsSkipped(a: string, rest: Args)
    ensures BeforeInput(["-ss", a] + rest) == BeforeInput(rest)
    ensures FromInput(["-ss", a] + rest) == FromInput(rest)
  {
    assert (["-ss", a] + rest)[2..] == rest;
  }

  /** Nothing changes from the first kept input on: it is a suffix of the arguments, and of the result. */
  lemma {:induction false} InputOnwardsUnchanged(args: Args, offset: string)
    ensures var rest := FromInput(args);
            && |rest| <= |args| && args[|args| - |rest|..] == rest
            && (rest != [] ==> rest[0] == "-i")
            && Sought(args, offset) == (if rest == [] then ["-ss", offset] + BeforeInput(args)
                                        else BeforeInput(args) + ["-ss", offset] + rest)
    decreases |args|
  {
    if args != [] {
      if args[0] == "-ss" && |args| > 1 {
        InputOnwardsUnchanged(args[2..], offset);
      } else if args[0] != "-i" {
        InputOnwardsUnchanged(args[1..], offset);
      }
    }
  }
}
