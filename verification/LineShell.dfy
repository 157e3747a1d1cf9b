/** runLineShell: a line-by-line operator loop in which every mutation is
    staged, shown, and sent only on a later `confirm`. */
module LineShell {
  import opened Wrappers
  import opened OperationIds
  import opened Controller
  import DashboardFences
  import opened DashboardAuthority

  /** What a mutation is to do. A creation names its target; the others act on the selected work. */
  datatype LineMutation =
    | Creation(action: Action, target: string, input: string)
    | OnSelected(action: Action, payload: Payload, input: string)

  datatype Command = Mutate(mutation: LineMutation) | Confirm | Cancel | Quit | Other

  /** The mounted view while one line is handled. */
  datatype View = View(ctl: State, routeWork: Option<string>, selectedWork: Option<string>)

  /** `time` and `drawn` go into the id of an operation sent on this line. */
  datatype Line = Line(command: Command, view: View, time: nat, drawn: nat)

  /** PendingMutation. */
  datatype Staged = Staged(target: string, workId: Option<string>, mutation: LineMutation)

  /** The revision and the attempt that a confirmation prompt shows. */
  datatype Prompt = Prompt(revision: Option<nat>, attempt: Option<Attempt>)

  /** The mutation sent, the line that confirmed it, and the line whose prompt
      showed it. `request` is what went out; None where the controller refuses. */
  datatype Execution = Execution(confirmed: nat, shown: nat, sent: Staged, prompt: Prompt, request: Option<Request>)

  function RevisionIn(view: View): Option<nat> {
    if view.ctl.model.Some? then Some(view.ctl.model.value.revision) else None
  }

  function AttemptIn(view: View, workId: string): Option<Attempt> {
    if ItemOf(view.ctl, workId).Some? then ItemOf(view.ctl, workId).value.attempt else None
  }

  function PromptOf(view: View): Prompt {
    Prompt(RevisionIn(view), if view.selectedWork.Some? then AttemptIn(view, view.selectedWork.value) else None)
  }

  predicate Stageable(line: Line) {
    line.command.Mutate? &&
    (line.command.mutation.Creation? || (line.view.selectedWork.Some? && line.view.routeWork == line.view.selectedWork))
  }

  function StagedBy(line: Line): Staged
    requires Stageable(line)
  {
    match line.command.mutation
    case Creation(_, target, _) => Staged(target, None, line.command.mutation)
    case OnSelected(_, _, _) => Staged(line.view.selectedWork.value, line.view.selectedWork, line.command.mutation)
  }

  /** executeMutation's call of the controller. */
  function IntentOf(staged: Staged): Intent {
    match staged.mutation
    case Creation(action, _, input) => Create(action, input)
    case OnSelected(action, payload, input) => OnWork(action, if staged.workId.Some? then staged.workId.value else "", payload, input)
  }

  function RequestOn(line: Line, staged: Staged): Option<Request> {
    var s := line.view.ctl;
    match Begin(s, IntentOf(staged), OperationId(line.time, s.sequence + line.drawn + 1), s.sequence + line.drawn + 1)
    case None => None
    case Some((_, request)) => Some(request)
  }

  function ExecutionOf(lines: seq<Line>, c: nat, j: nat): Execution
    requires c < |lines| && j < |lines| && Stageable(lines[j])
  {
    Execution(c, j, StagedBy(lines[j]), PromptOf(lines[j].view), RequestOn(lines[c], StagedBy(lines[j])))
  }

  predicate Decides(line: Line) {
    line.command.Confirm? || line.command.Cancel?
  }

  /** The shell is still reading when it comes to line `i`. */
  ghost predicate Reached(lines: seq<Line>, i: nat) {
    i <= |lines| && forall k :: 0 <= k < i ==> !lines[k].command.Quit?
  }

  ghost predicate UndecidedSince(lines: seq<Line>, j: nat, i: nat) {
    i <= |lines| && forall k :: j < k < i ==> !Decides(lines[k])
  }

  /** Line `j` put up its prompt: since the last confirm or cancel no earlier
      line could have. */
  ghost predicate Shows(lines: seq<Line>, j: nat) {
    && j < |lines| && Stageable(lines[j])
    && forall k :: 0 <= k < j && Stageable(lines[k]) ==> !UndecidedSince(lines, k, j)
  }

  /** The mutation line `j` showed is the one that `confirm` on line `c` sends. */
  ghost predicate Sends(lines: seq<Line>, c: nat, j: nat) {
    && j < c < |lines| && Reached(lines, c) && lines[c].command.Confirm?
    && Shows(lines, j) && UndecidedSince(lines, j, c)
  }

  ghost predicate Awaits(lines: seq<Line>, i: nat, j: nat) {
    j < i <= |lines| && Shows(lines, j) && UndecidedSince(lines, j, i)
  }

  ghost predicate Logs(lines: seq<Line>, i: nat, log: seq<Execution>) {
    && (forall x :: 0 <= x < |log| ==>
          && log[x].confirmed < i && Sends(lines, log[x].confirmed, log[x].shown)
          && log[x] == ExecutionOf(lines, log[x].confirmed, log[x].shown))
    && (forall x, y :: 0 <= x < y < |log| ==> log[x].confirmed < log[y].shown)
    && (forall c: nat, j: nat :: c < i && Sends(lines, c, j) ==> exists x :: 0 <= x < |log| && log[x].confirmed == c && log[x].shown == j)
  }

  predicate Answers(line: Line) {
    line.command == Confirm || line.command == Cancel
  }

  /** A confirm sends what line `j` showed exactly if that prompt is the one it
      answers: no confirm or cancel lies between them, every earlier line that
      could have put up a prompt was answered before line `j`, and nothing quit. */
  lemma SendsIff(lines: seq<Line>, c: nat, j: nat)
    ensures Sends(lines, c, j) <==>
            && j < c < |lines| && lines[c].command == Confirm && Stageable(lines[j])
            && (forall k :: 0 <= k < c ==> lines[k].command != Quit)
            && (forall k :: j < k < c ==> !Answers(lines[k]))
            && (forall k :: 0 <= k < j && Stageable(lines[k]) ==> exists d :: k < d < j && Answers(lines[d]))
  {
  }

  /** Two prompts are never open at once. */
  lemma OnePrompt(lines: seq<Line>, i: nat, j: nat, j': nat)
    requires Awaits(lines, i, j) && Awaits(lines, i, j')
    ensures j == j'
  {
    if j < j' { assert UndecidedSince(lines, j, j'); }
    if j' < j { assert UndecidedSince(lines, j', j); }
  }

  /** Nothing awaits a decision while no line since the last decision could be staged. */
  ghost predicate Clear(lines: seq<Line>, i: nat) {
    i <= |lines| && forall k :: 0 <= k < i && Stageable(lines[k]) ==> !UndecidedSince(lines, k, i)
  }

  /** With nothing to decide, a line puts up a prompt exactly if it is a
      creation, or a mutation of the work that is both selected and routed to. */
  lemma PromptIff(lines: seq<Line>, i: nat)
    requires i < |lines| && Clear(lines, i)
    ensures Shows(lines, i) <==>
            lines[i].command.Mutate?
            && (lines[i].command.mutation.OnSelected? ==>
                  lines[i].view.routeWork.Some? && lines[i].view.selectedWork == lines[i].view.routeWork)
  {
  }

  lemma NothingSent(lines: seq<Line>, i: nat, j: nat)
    requires i < |lines| && (!lines[i].command.Confirm? || Clear(lines, i))
    ensures !Sends(lines, i, j)
  {
  }

  lemma NextClear(lines: seq<Line>, i: nat)
    requires i < |lines| && (Decides(lines[i]) || (Clear(lines, i) && !Stageable(lines[i])))
    ensures Clear(lines, i + 1)
  {
    forall k | 0 <= k < i + 1 && Stageable(lines[k]) ensures !UndecidedSince(lines, k, i + 1) {
      if Decides(lines[i]) {
        assert k != i;
      } else {
        assert k < i && !UndecidedSince(lines, k, i);
      }
    }
  }

  lemma NextAwaits(lines: seq<Line>, i: nat, j: nat)
    requires i < |lines| && !Decides(lines[i])
    requires Awaits(lines, i, j) || (j == i && Clear(lines, i) && Stageable(lines[i]))
    ensures Awaits(lines, i + 1, j)
  {
  }

  lemma LogQuiet(lines: seq<Line>, i: nat, log: seq<Execution>)
    requires Logs(lines, i, log) && i < |lines| && (!lines[i].command.Confirm? || Clear(lines, i))
    ensures Logs(lines, i + 1, log)
  {
    forall c: nat, j: nat | c < i + 1 && Sends(lines, c, j)
      ensures exists x :: 0 <= x < |log| && log[x].confirmed == c && log[x].shown == j
    {
      NothingSent(lines, i, j);
    }
  }

  lemma EarlierConfirms(lines: seq<Line>, i: nat, j: nat, log: seq<Execution>)
    requires Logs(lines, i, log) && Awaits(lines, i, j)
    ensures forall x :: 0 <= x < |log| ==> log[x].confirmed < j
  {
    forall x | 0 <= x < |log| ensures log[x].confirmed < j {
      if j <= log[x].confirmed {
        assert log[x].confirmed != j;
        assert Decides(lines[log[x].confirmed]);
      }
    }
  }

  lemma OnlySending(lines: seq<Line>, i: nat, j: nat, j': nat)
    requires Awaits(lines, i, j) && Sends(lines, i, j')
    ensures j == j'
  {
    assert Awaits(lines, i, j');
    OnePrompt(lines, i, j, j');
  }

  lemma LogSend(lines: seq<Line>, i: nat, j: nat, log: seq<Execution>)
    requires Logs(lines, i, log) && i < |lines| && Reached(lines, i) && lines[i].command.Confirm? && Awaits(lines, i, j)
    ensures Logs(lines, i + 1, log + [ExecutionOf(lines, i, j)])
  {
    var log' := log + [ExecutionOf(lines, i, j)];
    assert Sends(lines, i, j);
    EarlierConfirms(lines, i, j, log);
    forall c: nat, j': nat | c < i + 1 && Sends(lines, c, j')
      ensures exists x :: 0 <= x < |log'| && log'[x].confirmed == c && log'[x].shown == j'
    {
      if c == i {
        OnlySending(lines, i, j, j');
        assert log'[|log|] == ExecutionOf(lines, i, j);
      } else {
        var x :| 0 <= x < |log| && log[x].confirmed == c && log[x].shown == j';
        assert log'[x] == log[x];
      }
    }
  }

  /** For every sequence of lines the mutations executed are exactly those
      whose prompt a `confirm` answers: in order, once each, with the target
      and payload the prompt showed - however many refused lines lie between -
      and none after a cancel, a quit or the end of input. */
  method RunLineShell(lines: seq<Line>) returns (log: seq<Execution>)
    ensures Logs(lines, |lines|, log)
  {
    var pending: Option<Staged> := None;
    var shown, prompt := 0, Prompt(None, None);   // kept for the log only
    log := [];
    var i := 0;
    while i < |lines|
      invariant 0 <= i <= |lines| && Reached(lines, i)
      invariant pending.None? ==> Clear(lines, i)
      invariant pending.Some? ==> Awaits(lines, i, shown) && pending.value == StagedBy(lines[shown]) && prompt == PromptOf(lines[shown].view)
      invariant Logs(lines, i, log)
    {
      var line := lines[i];
      if pending.Some? && !Decides(line) {
        if line.command.Quit? {
          QuitEnds(lines, i, log);
          return;
        }
        NextAwaits(lines, i, shown);
        LogQuiet(lines, i, log);
      } else if line.command.Confirm? {
        NextClear(lines, i);
        if pending.Some? {
          LogSend(lines, i, shown, log);
          log := log + [Execution(i, shown, pending.value, prompt, RequestOn(line, pending.value))];
          pending := None;
        } else {
          LogQuiet(lines, i, log);
        }
      } else if line.command.Cancel? {
        NextClear(lines, i);
        LogQuiet(lines, i, log);
        pending := None;
      } else {
        LogQuiet(lines, i, log);
        match line.command {
          case Mutate(mutation) =>
            if mutation.OnSelected? && (line.view.selectedWork.None? || line.view.routeWork != line.view.selectedWork) {
              NextClear(lines, i);
            } else {
              pending := Some(StagedBy(line));
              shown, prompt := i, PromptOf(line.view);
              NextAwaits(lines, i, i);
            }
          case Quit =>
            QuitEnds(lines, i, log);
            return;
          case Other => NextClear(lines, i);
        }
      }
      i := i + 1;
    }
  }

  lemma QuitEnds(lines: seq<Line>, i: nat, log: seq<Execution>)
    requires Logs(lines, i, log) && i < |lines| && lines[i].command.Quit?
    ensures Logs(lines, |lines|, log)
  {
    forall c: nat, j: nat | c < |lines| && Sends(lines, c, j) ensures c < i {
      assert Reached(lines, c);
    }
  }

  /** A confirmed mutation that goes out does so on the state of its
      confirming line: on the revision its prompt showed exactly if that is
      still the revision, and for the attempt shown exactly if that is still
      the work's attempt. */
  lemma SentAsShownIff(lines: seq<Line>, c: nat, j: nat)
    requires Sends(lines, c, j) && RequestOn(lines[c], StagedBy(lines[j])).Some?
    ensures var e := ExecutionOf(lines, c, j);
            var r := e.request.value;
            && (Some(r.expectedRevision) == e.prompt.revision <==> RevisionIn(lines[c].view) == RevisionIn(lines[j].view))
            && (r.attempt.Some? ==>
                  && r.workId.Some? && r.workId == e.sent.workId
                  && (r.attempt == e.prompt.attempt <==> AttemptIn(lines[c].view, r.workId.value) == AttemptIn(lines[j].view, r.workId.value)))
  {
    var staged, s := StagedBy(lines[j]), lines[c].view.ctl;
    var n := s.sequence + lines[c].drawn + 1;
    DashboardFences.BeginBasis(s, IntentOf(staged), OperationId(lines[c].time, n), n);
    DashboardFences.FoundItemHasId(if s.model.Some? then s.model.value.items else [],
                                   if staged.workId.Some? then staged.workId.value else "");
  }

  /** The controller of the confirming line permits what the staging line asked for. */
  ghost predicate PermittedThere(confirming: Line, staging: Line)
    requires Stageable(staging)
  {
    var s := confirming.view.ctl;
    match staging.command.mutation
    case Creation(action, _, _) => MayCreate(s, action)
    case OnSelected(action, _, _) =>
      exists i: nat :: ShownAt(s, staging.view.selectedWork.value, i) && MayWork(s, action, s.model.value.items[i])
  }

  /** A confirmed mutation goes out exactly if the controller permits it when it
      is confirmed, and it is the one that was typed: the same action, text and
      evidence, for the work that was selected then. */
  lemma SentIsWhatWasTyped(lines: seq<Line>, c: nat, j: nat)
    requires Sends(lines, c, j)
    ensures var request, typed := ExecutionOf(lines, c, j).request, lines[j].command.mutation;
            && (request.Some? <==> PermittedThere(lines[c], lines[j]))
            && (request.Some? ==>
                  && request.value.mutation == Lifecycle(typed.action) && request.value.input == typed.input
                  && (typed.Creation? ==> request.value.workId.None?)
                  && (typed.OnSelected? ==> request.value.workId == lines[j].view.selectedWork == lines[j].view.routeWork
                                            && (typed.action.Evidence? ==> request.value.payload == Some(typed.payload))))
  {
    var intent, s := IntentOf(StagedBy(lines[j])), lines[c].view.ctl;
    var n := s.sequence + lines[c].drawn + 1;
    BeginIffPermitted(s, intent, OperationId(lines[c].time, n), n);
    if Begin(s, intent, OperationId(lines[c].time, n), n).Some? { BeginAsks(s, intent, OperationId(lines[c].time, n), n); }
  }

  /** The controller at revision `n`, with the work at fence `n`. */
  function AtFence(n: nat): State {
    INITIAL.(model := Some(Snapshot(n, None, [WorkItem("w", Some(Attempt("a", n)), false, Some({Release}))], {}, None)),
             mounted := true, authorityFresh := true, floor := n)
  }

  /** A read that lands between the prompt and its confirmation: the release
      is shown for revision and fence 1, and sent for revision and fence 2. */
  lemma PromptIsNotPinned(log: seq<Execution>)
    requires var release := Mutate(OnSelected(Release, Opaque(""), ""));
             var lines := [Line(release, View(AtFence(1), Some("w"), Some("w")), 0, 0), Line(Confirm, View(AtFence(2), Some("w"), Some("w")), 0, 0)];
             Logs(lines, 2, log)
    ensures |log| == 1 && log[0].prompt == Prompt(Some(1), Some(Attempt("a", 1)))
    ensures log[0].request.Some? && log[0].request.value.expectedRevision == 2 && log[0].request.value.attempt == Some(Attempt("a", 2))
  {
    var release := Mutate(OnSelected(Release, Opaque(""), ""));
    var lines := [Line(release, View(AtFence(1), Some("w"), Some("w")), 0, 0), Line(Confirm, View(AtFence(2), Some("w"), Some("w")), 0, 0)];
    assert Sends(lines, 1, 0);
    var x :| 0 <= x < |log| && log[x].confirmed == 1 && log[x].shown == 0;
    OnlyEntry(lines, log, x);
    ReleaseAt(1);
    ReleaseAt(2);
  }

  lemma ReleaseAt(n: nat)
    ensures ItemOf(AtFence(n), "w") == Some(WorkItem("w", Some(Attempt("a", n)), false, Some({Release})))
    ensures forall id, sequence :: Begin(AtFence(n), OnWork(Release, "w", Opaque(""), ""), id, sequence).Some?
              && Begin(AtFence(n), OnWork(Release, "w", Opaque(""), ""), id, sequence).value.1
                 == Request(id, Lifecycle(Release), Some("w"), n, Some(Attempt("a", n)), None, "")
  {
  }

  lemma SameEntry(lines: seq<Line>, log: seq<Execution>, x: nat, y: nat)
    requires |lines| == 2 && Logs(lines, 2, log) && x < |log| && y < |log|
    ensures x == y
  {
    assert Sends(lines, log[x].confirmed, log[x].shown) && Sends(lines, log[y].confirmed, log[y].shown);
    assert log[x].confirmed == log[y].confirmed == 1 && log[x].shown == log[y].shown == 0;
  }

  lemma OnlyEntry(lines: seq<Line>, log: seq<Execution>, x: nat)
    requires |lines| == 2 && Logs(lines, 2, log) && x < |log|
    ensures |log| == 1 && x == 0
  {
    SameEntry(lines, log, x, 0);
    SameEntry(lines, log, x, |log| - 1);
  }

  /******* parseOptions *******/

  datatype Options = Options(positional: seq<string>, values: map<string, string>)

  datatype Refusal = Unsupported(option: string) | Repeated(option: string) | NoValue(option: string)

  predicate IsOption(arg: string) {
    |arg| >= 2 && arg[0] == '-' && arg[1] == '-'
  }

  function Parse(args: seq<string>, allowed: set<string>, o: Options): Result<Options, Refusal>
    decreases |args|
  {
    if args == [] then Ok(o)
    else if !IsOption(args[0]) then Parse(args[1..], allowed, o.(positional := o.positional + [args[0]]))
    else if args[0] !in allowed then Err(Unsupported(args[0]))
    else if args[0] in o.values then Err(Repeated(args[0]))
    else if |args| == 1 || args[1] == "" || IsOption(args[1]) then Err(NoValue(args[0]))
    else Parse(args[2..], allowed, o.(values := o.values[args[0] := args[1]]))
  }

  /** An argument list in which each option name is followed by its value. */
  datatype Argument = Positional(text: string) | Option(name: string, value: string)

  predicate Proper(a: Argument, allowed: set<string>) {
    match a
    case Positional(text) => !("--" <= text)
    case Option(name, value) => "--" <= name && name in allowed && value != "" && !("--" <= value)
  }

  function Spell(a: Argument): seq<string> {
    match a
    case Positional(text) => [text]
    case Option(name, value) => [name, value]
  }

  function SpellAll(arguments: seq<Argument>): seq<string> {
    if arguments == [] then [] else Spell(arguments[0]) + SpellAll(arguments[1..])
  }

  predicate ProperAll(arguments: seq<Argument>, allowed: set<string>, taken: map<string, string>) {
    if arguments == [] then true
    else
      && Proper(arguments[0], allowed)
      && (arguments[0].Option? ==> arguments[0].name !in taken)
      && ProperAll(arguments[1..], allowed, Collect(arguments[0], Options([], taken)).values)
  }

  function Collect(a: Argument, o: Options): Options {
    match a
    case Positional(text) => o.(positional := o.positional + [text])
    case Option(name, value) => o.(values := o.values[name := value])
  }

  function CollectAll(arguments: seq<Argument>, o: Options): Options {
    if arguments == [] then o else CollectAll(arguments[1..], Collect(arguments[0], o))
  }

  lemma {:induction false} SpelledParses(arguments: seq<Argument>, allowed: set<string>, o: Options)
    requires ProperAll(arguments, allowed, o.values)
    ensures Parse(SpellAll(arguments), allowed, o) == Ok(CollectAll(arguments, o))
  {
    if arguments != [] {
      var a, rest := arguments[0], SpellAll(arguments[1..]);
      SpelledParses(arguments[1..], allowed, Collect(a, o));
      match a
      case Positional(text) => assert ([text] + rest)[1..] == rest;
      case Option(name, value) => assert ([name, value] + rest)[2..] == rest;
    }
  }

  lemma ArgumentInFront(a: Argument, arguments: seq<Argument>, allowed: set<string>, taken: map<string, string>)
    ensures SpellAll([a] + arguments) == Spell(a) + SpellAll(arguments)
    ensures ProperAll([a] + arguments, allowed, taken) <==>
            && Proper(a, allowed) && (a.Option? ==> a.name !in taken)
            && ProperAll(arguments, allowed, Collect(a, Options([], taken)).values)
  {
    assert ([a] + arguments)[1..] == arguments;
  }

  lemma {:induction false} ParsedIsSpelled(args: seq<string>, allowed: set<string>, o: Options)
    requires Parse(args, allowed, o).Ok?
    ensures exists arguments :: SpellAll(arguments) == args && ProperAll(arguments, allowed, o.values)
    decreases |args|
  {
    if args == [] {
      assert SpellAll([]) == args && ProperAll([], allowed, o.values);
    } else {
      var a := FrontArgument(args, allowed, o);
      var rest := args[|Spell(a)|..];
      ParsedIsSpelled(rest, allowed, Collect(a, o));
      var arguments :| SpellAll(arguments) == rest && ProperAll(arguments, allowed, Collect(a, o).values);
      ArgumentInFront(a, arguments, allowed, o.values);
      SameValues(a, o);
    }
  }

  lemma SameValues(a: Argument, o: Options)
    ensures Collect(a, Options([], o.values)).values == Collect(a, o).values
  {
  }

  /** What the accepted arguments begin with. */
  lemma FrontArgument(args: seq<string>, allowed: set<string>, o: Options) returns (a: Argument)
    requires args != [] && Parse(args, allowed, o).Ok?
    ensures |Spell(a)| <= |args| && args == Spell(a) + args[|Spell(a)|..]
    ensures Proper(a, allowed) && (a.Option? ==> a.name !in o.values)
    ensures Parse(args[|Spell(a)|..], allowed, Collect(a, o)).Ok?
  {
    a := if IsOption(args[0]) then Option(args[0], args[1]) else Positional(args[0]);
  }

  /** The arguments are accepted exactly when they are positional texts and
      distinct allowed options with their values, in any order. */
  lemma ParsesIffSpelled(args: seq<string>, allowed: set<string>)
    ensures Parse(args, allowed, Options([], map[])).Ok? <==>
            exists arguments :: SpellAll(arguments) == args && ProperAll(arguments, allowed, map[])
  {
    if Parse(args, allowed, Options([], map[])).Ok? {
      ParsedIsSpelled(args, allowed, Options([], map[]));
    }
    if arguments :| SpellAll(arguments) == args && ProperAll(arguments, allowed, map[]) {
      SpelledParses(arguments, allowed, Options([], map[]));
    }
  }

  method ParseOptions(args: seq<string>, allowed: set<string>) returns (r: Result<Options, Refusal>)
    ensures r == Parse(args, allowed, Options([], map[]))
  {
    var positional, values := [], map[];
    var index := 0;
    assert args[0..] == args;
    while index < |args|
      invariant 0 <= index <= |args|
      invariant Parse(args, allowed, Options([], map[])) == Parse(args[index..], allowed, Options(positional, values))
    {
      var arg := args[index];
      assert args[index..][1..] == args[index + 1..];
      if !IsOption(arg) {
        positional := positional + [arg];
        index := index + 1;
        continue;
      }
      if arg !in allowed {
        return Err(Unsupported(arg));
      }
      if arg in values {
        return Err(Repeated(arg));
      }
      if index + 1 == |args| || args[index + 1] == "" || IsOption(args[index + 1]) {
        return Err(NoValue(arg));
      }
      assert args[index..][2..] == args[index + 2..];
      values := values[arg := args[index + 1]];
      index := index + 2;
    }
    r := Ok(Options(positional, values));
  }
}
