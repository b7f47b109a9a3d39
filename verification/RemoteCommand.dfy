/** `Session._command`: the argv a session is started with, and for ssh the two nested layers
    of shell quoting around the working directory, the environment and the agent's arguments. */
module RemoteCommand {
  import opened Common
  import opened ShellSyntax

  datatype Agent = Claude | Codex | Shell

  datatype Variable = Variable(name: string, value: string)

  /** The project settings `_command` reads; `env` in the order of the dict. */
  datatype Project = Project(
    ssh: Option<string>,
    cwd: string,
    agent: Agent,
    commandArgs: seq<string>,
    env: seq<Variable>)

  function AgentName(agent: Agent): string {
    match agent
    case Claude => "claude"
    case Codex => "codex"
    case Shell => "shell"
  }

  /** The options that switch notifications on for this process only. */
  function Notify(agent: Agent): seq<string> {
    match agent
    case Claude => ["--settings", "{\"preferredNotifChannel\":\"terminal_bell\"}"]
    case Codex => ["-c", "tui.notifications=true"]
    case Shell => []
  }

  function AgentCommand(p: Project, extra: seq<string>): seq<string> {
    [AgentName(p.agent)] + p.commandArgs + Notify(p.agent) + extra
  }

  function Assignments(env: seq<Variable>): (r: seq<string>)
    ensures |r| == |env|
  {
    seq(|env|, i requires 0 <= i < |env| => env[i].name + "=" + env[i].value)
  }

  /** What runs on the remote side, before the environment is put in front of it. */
  function RemoteProgram(p: Project, extra: seq<string>): seq<string> {
    if p.agent == Shell then ["bash", "-l"] else AgentCommand(p, extra)
  }

  function WithEnv(env: seq<Variable>, program: seq<string>): seq<string> {
    if env == [] then program else ["env"] + Assignments(env) + program
  }

  function DirectString(p: Project, extra: seq<string>): string {
    "cd " + Quote(p.cwd) + " && exec " + Join(WithEnv(p.env, RemoteProgram(p, extra)))
  }

  /** The one string ssh hands to the remote shell. */
  function RemoteString(p: Project, extra: seq<string>): string {
    if p.agent == Shell then DirectString(p, extra)
    else "exec bash -lc " + Quote(DirectString(p, extra))
  }

  function Command(p: Project, extra: seq<string>, loginShell: string): seq<string> {
    match p.ssh
    case Some(host) => ["ssh", "-t", host, RemoteString(p, extra)]
    case None => if p.agent == Shell then [loginShell, "-l"] else AgentCommand(p, extra)
  }

  // ---- What the remote side does with the string -------------------------------------------

  /** A working directory, an environment and an argv: what a launch amounts to. */
  datatype Launch = Launch(cwd: string, env: seq<Variable>, argv: seq<string>)

  /** `env` reads its operands as assignments as long as they contain '=', each split at the
      first one. */
  function SplitEnv(args: seq<string>): (seq<Variable>, seq<string>)
    decreases |args|
  {
    if args == [] || '=' !in args[0] then ([], args)
    else
      var (variables, rest) := SplitEnv(args[1..]);
      ([SplitAssignment(args[0])] + variables, rest)
  }

  function SplitAssignment(s: string): Variable
    requires '=' in s
  {
    if s[0] == '=' then Variable("", s[1..])
    else
      var rest := SplitAssignment(s[1..]);
      Variable([s[0]] + rest.name, rest.value)
  }

  function Texts(ts: seq<Token>): seq<string>
    requires forall i :: 0 <= i < |ts| ==> ts[i].Word?
  {
    seq(|ts|, i requires 0 <= i < |ts| => ts[i].text)
  }

  /** How every direct string begins: `cd DIR && exec`. */
  function DirectPrefix(cwd: string): (r: seq<Token>)
    ensures |r| == 4 && r[1] == Word(cwd)
  {
    [Word("cd"), Word(cwd), AndIf, Word("exec")]
  }

  /** How every wrapped string begins: `exec bash -lc`. */
  const WRAPPER: seq<Token> := [Word("exec"), Word("bash"), Word("-lc")]

  /** `cd DIR && exec ARGV...`, with `env NAME=VALUE...` in front of the program. */
  function InterpretDirect(s: string): Option<Launch> {
    match Tokens(s)
    case None => None
    case Some(ts) =>
      if |ts| > 4 && ts[1].Word? && ts[..4] == DirectPrefix(ts[1].text)
         && forall i :: 4 <= i < |ts| ==> ts[i].Word?
      then
        var argv := Texts(ts[4..]);
        if argv[0] == "env"
        then
          var (variables, program) := SplitEnv(argv[1..]);
          Some(Launch(ts[1].text, variables, program))
        else Some(Launch(ts[1].text, [], argv))
      else None
  }

  /** The shell sshd starts, and the login shell it may in turn be told to become. */
  function Interpret(s: string): Option<Launch> {
    match Tokens(s)
    case None => None
    case Some(ts) =>
      if |ts| == 4 && ts[..3] == WRAPPER && ts[3].Word?
      then InterpretDirect(ts[3].text)
      else InterpretDirect(s)
  }

  // ---- The strings parse back --------------------------------------------------------------

  /** Names `config` admits: a letter or underscore, then letters, digits and underscores. */
  predicate IsEnvName(name: string) {
    && name != ""
    && (forall i :: 0 <= i < |name| ==> IsNameChar(name[i]))
    && !('0' <= name[0] <= '9')
  }

  predicate IsNameChar(c: char) {
    'a' <= c <= 'z' || 'A' <= c <= 'Z' || '0' <= c <= '9' || c == '_'
  }

  /** Everything that ends up in an argv or an environment is free of NUL. */
  predicate Launchable(p: Project, extra: seq<string>) {
    && NoNul(p.cwd) && NoNuls(p.commandArgs) && NoNuls(extra)
    && forall i :: 0 <= i < |p.env| ==> IsEnvName(p.env[i].name) && NoNul(p.env[i].value)
  }

  lemma PlainWordFeeds(l: Lexer, w: string)
    requires l.Lexer? && l.mode == Bare && l.word.None? && AllSafe(w) && w != ""
    ensures Feed(l, w + " ") == Lexer(l.tokens + [Word(w)], None, Bare)
  {
    FeedConcat(l, w, " ");
    SafeFeeds(l, w);
    assert "" + w == w;
    FeedOne(Append(l, w, Bare), ' ');
  }

  lemma AndFeeds(l: Lexer, rest: string)
    requires l.Lexer? && l.mode == Bare && l.word.Some?
    ensures Feed(l, " && " + rest) ==
            Feed(Lexer(l.tokens + [Word(l.word.value), AndIf], None, Bare), rest)
  {
    var closed := Lexer(l.tokens + [Word(l.word.value)], None, Bare);
    var both := Lexer(l.tokens + [Word(l.word.value), AndIf], None, Bare);
    assert " && " + rest == [' '] + (['&'] + (['&'] + ([' '] + rest)));
    FeedCons(l, ' ', ['&'] + (['&'] + ([' '] + rest)));
    FeedCons(closed, '&', ['&'] + ([' '] + rest));
    FeedCons(closed.(mode := Ampersand), '&', [' '] + rest);
    assert closed.tokens + [AndIf] == both.tokens;
    FeedCons(both, ' ', rest);
  }

  lemma CdFeeds()
    ensures Feed(START, "cd ") == Lexer([Word("cd")], None, Bare)
  {
    assert "cd " == "cd" + " ";
    PlainWordFeeds(START, "cd");
  }

  lemma CdDirFeeds(cwd: string)
    requires NoNul(cwd)
    ensures Feed(START, "cd " + Quote(cwd)) == Lexer([Word("cd")], Some(cwd), Bare)
  {
    FeedConcat(START, "cd ", Quote(cwd));
    CdFeeds();
    QuoteFeeds(Lexer([Word("cd")], None, Bare), cwd);
    assert "" + cwd == cwd;
  }

  lemma AndExecFeeds(l: Lexer)
    requires l.Lexer? && l.mode == Bare && l.word.Some?
    ensures Feed(l, " && exec ") == Lexer(l.tokens + [Word(l.word.value), AndIf] + [Word("exec")], None, Bare)
  {
    assert " && exec " == " && " + ("exec" + " ");
    AndFeeds(l, "exec" + " ");
    PlainWordFeeds(Lexer(l.tokens + [Word(l.word.value), AndIf], None, Bare), "exec");
  }

  /** The fixed beginning of every direct string, up to the program. */
  lemma DirectPrefixFeeds(cwd: string)
    requires NoNul(cwd)
    ensures Feed(START, "cd " + Quote(cwd) + " && exec ") == Lexer(DirectPrefix(cwd), None, Bare)
  {
    FeedConcat(START, "cd " + Quote(cwd), " && exec ");
    CdDirFeeds(cwd);
    AndExecFeeds(Lexer([Word("cd")], Some(cwd), Bare));
    assert [Word("cd")] + [Word(cwd), AndIf] + [Word("exec")] == DirectPrefix(cwd);
  }

  /** Joined words at the end of a command string are its last tokens. */
  lemma JoinEnds(prefix: string, l: Lexer, argv: seq<string>)
    requires Feed(START, prefix) == l && l.Lexer? && l.mode == Bare && l.word.None?
    requires NoNuls(argv) && argv != []
    ensures Tokens(prefix + Join(argv)) == Some(l.tokens + Words(argv))
  {
    FeedConcat(START, prefix, Join(argv));
    JoinFeeds(l, argv);
    var n := |argv| - 1;
    assert Words(argv) == Words(argv[..n]) + [Word(argv[n])];
    assert l.tokens + Words(argv[..n]) + [Word(argv[n])] == l.tokens + Words(argv);
  }

  lemma QuoteEnds(prefix: string, l: Lexer, w: string)
    requires Feed(START, prefix) == l && l.Lexer? && l.mode == Bare && l.word.None? && NoNul(w)
    ensures Tokens(prefix + Quote(w)) == Some(l.tokens + [Word(w)])
  {
    FeedConcat(START, prefix, Quote(w));
    QuoteFeeds(l, w);
    assert "" + w == w;
  }

  lemma DirectTokens(cwd: string, argv: seq<string>)
    requires NoNul(cwd) && NoNuls(argv) && argv != []
    ensures Tokens("cd " + Quote(cwd) + " && exec " + Join(argv)) == Some(DirectPrefix(cwd) + Words(argv))
  {
    DirectPrefixFeeds(cwd);
    JoinEnds("cd " + Quote(cwd) + " && exec ", Lexer(DirectPrefix(cwd), None, Bare), argv);
  }

  lemma ThreeWordsFeed(a: string, b: string, c: string)
    requires AllSafe(a) && a != "" && AllSafe(b) && b != "" && AllSafe(c) && c != ""
    ensures Feed(START, a + " " + (b + " ") + (c + " ")) == Lexer([Word(a), Word(b), Word(c)], None, Bare)
  {
    FeedConcat(START, a + " " + (b + " "), c + " ");
    FeedConcat(START, a + " ", b + " ");
    PlainWordFeeds(START, a);
    PlainWordFeeds(Lexer([Word(a)], None, Bare), b);
    PlainWordFeeds(Lexer([Word(a), Word(b)], None, Bare), c);
    assert START.tokens + [Word(a)] == [Word(a)];
    assert [Word(a)] + [Word(b)] == [Word(a), Word(b)];
    assert [Word(a), Word(b)] + [Word(c)] == [Word(a), Word(b), Word(c)];
  }

  lemma WrapperFeeds()
    ensures Feed(START, "exec bash -lc ") == Lexer(WRAPPER, None, Bare)
  {
    ThreeWordsFeed("exec", "bash", "-lc");
    assert "exec" + " " + ("bash" + " ") + ("-lc" + " ") == "exec bash -lc ";
  }

  lemma WrappedTokens(inner: string)
    requires NoNul(inner)
    ensures Tokens("exec bash -lc " + Quote(inner)) == Some(WRAPPER + [Word(inner)])
  {
    WrapperFeeds();
    QuoteEnds("exec bash -lc ", Lexer(WRAPPER, None, Bare), inner);
  }

  lemma {:induction false} SplitsBack(name: string, value: string)
    requires '=' !in name
    ensures SplitAssignment(name + "=" + value) == Variable(name, value)
    decreases |name|
  {
    var s := name + "=" + value;
    if name == "" {
      assert s[1..] == value;
    } else {
      assert s[1..] == name[1..] + "=" + value;
      SplitsBack(name[1..], value);
    }
  }

  lemma {:induction false} EnvSplitsBack(env: seq<Variable>, program: seq<string>)
    requires forall i :: 0 <= i < |env| ==> '=' !in env[i].name
    requires program != [] && '=' !in program[0]
    ensures SplitEnv(Assignments(env) + program) == (env, program)
    decreases |env|
  {
    var args := Assignments(env) + program;
    if env == [] {
      assert args == program;
    } else {
      SplitsBack(env[0].name, env[0].value);
      assert args[0][|env[0].name|] == '=';
      assert Assignments(env)[1..] == Assignments(env[1..]);
      assert args[1..] == Assignments(env[1..]) + program;
      EnvSplitsBack(env[1..], program);
      assert env == [env[0]] + env[1..];
    }
  }

  lemma AgentNameIsClean(agent: Agent)
    ensures NoNul(AgentName(agent)) && AgentName(agent) != "env" && '=' !in AgentName(agent)
  {
    match agent
    case Claude => assert "claude"[0] == 'c' && "env"[0] == 'e';
    case Codex => assert "codex"[0] == 'c' && "env"[0] == 'e';
    case Shell => assert "shell"[0] == 's' && "env"[0] == 'e';
  }

  lemma NotifyIsClean(agent: Agent)
    ensures NoNuls(Notify(agent))
  {
    match agent
    case Claude =>
      assert NoNul("--settings");
      assert NoNul("{\"preferredNotifChannel\":\"terminal_bell\"}");
    case Codex =>
      assert NoNul("-c");
      assert NoNul("tui.notifications=true");
    case Shell =>
  }

  lemma LoginShellIsClean()
    ensures NoNul("bash") && NoNul("-l") && "bash" != "env" && '=' !in "bash" && NoNul("env")
  {
    assert "bash"[0] == 'b' && "env"[0] == 'e';
  }

  lemma ProgramIsClean(p: Project, extra: seq<string>)
    requires Launchable(p, extra)
    ensures var program := RemoteProgram(p, extra);
            && program != [] && NoNuls(program) && program[0] != "env" && '=' !in program[0]
  {
    AgentNameIsClean(p.agent);
    NotifyIsClean(p.agent);
    LoginShellIsClean();
  }

  lemma EnvIsClean(p: Project, extra: seq<string>)
    requires Launchable(p, extra)
    ensures NoNuls(Assignments(p.env))
    ensures forall i :: 0 <= i < |p.env| ==> '=' !in p.env[i].name
  {
    forall i | 0 <= i < |p.env| ensures NoNul(Assignments(p.env)[i]) && '=' !in p.env[i].name {
      assert IsEnvName(p.env[i].name) && NoNul(p.env[i].value);
    }
  }

  lemma ArgvIsClean(p: Project, extra: seq<string>)
    requires Launchable(p, extra)
    ensures NoNuls(WithEnv(p.env, RemoteProgram(p, extra)))
  {
    ProgramIsClean(p, extra);
    EnvIsClean(p, extra);
    LoginShellIsClean();
  }

  /** What `InterpretDirect` makes of the tokens of a direct string. */
  lemma InterpretsTokens(s: string, cwd: string, argv: seq<string>)
    requires argv != [] && Tokens(s) == Some(DirectPrefix(cwd) + Words(argv))
    ensures InterpretDirect(s) ==
            if argv[0] == "env"
            then Some(Launch(cwd, SplitEnv(argv[1..]).0, SplitEnv(argv[1..]).1))
            else Some(Launch(cwd, [], argv))
  {
    var ts := DirectPrefix(cwd) + Words(argv);
    assert ts[..4] == DirectPrefix(cwd) && ts[4..] == Words(argv);
    assert Texts(ts[4..]) == argv;
  }

  lemma DropFirst(first: string, rest: seq<string>)
    ensures ([first] + rest)[1..] == rest && ([first] + rest)[0] == first
  {
  }

  lemma EnvTakenOff(env: seq<Variable>, program: seq<string>)
    requires program != [] && program[0] != "env" && '=' !in program[0]
    requires forall i :: 0 <= i < |env| ==> '=' !in env[i].name
    ensures var argv := WithEnv(env, program);
            && argv != []
            && (argv[0] == "env" <==> env != [])
            && (env != [] ==> SplitEnv(argv[1..]) == (env, program))
  {
    if env != [] {
      var rest := Assignments(env) + program;
      assert WithEnv(env, program) == ["env"] + rest;
      DropFirst("env", rest);
      EnvSplitsBack(env, program);
    }
  }

  lemma DirectRoundTrip(p: Project, extra: seq<string>)
    requires Launchable(p, extra)
    ensures InterpretDirect(DirectString(p, extra)) ==
            Some(Launch(p.cwd, p.env, RemoteProgram(p, extra)))
    ensures exists argv :: Tokens(DirectString(p, extra)) == Some(DirectPrefix(p.cwd) + Words(argv))
  {
    var program := RemoteProgram(p, extra);
    var argv := WithEnv(p.env, program);
    ProgramIsClean(p, extra);
    ArgvIsClean(p, extra);
    EnvIsClean(p, extra);
    EnvTakenOff(p.env, program);
    DirectTokens(p.cwd, argv);
    InterpretsTokens(DirectString(p, extra), p.cwd, argv);
  }

  lemma {:induction false} EscapeKeepsNoNul(s: string)
    requires NoNul(s)
    ensures NoNul(EscapeQuotes(s))
    decreases |s|
  {
    if s != "" {
      EscapeKeepsNoNul(s[1..]);
    }
  }

  lemma QuoteKeepsNoNul(s: string)
    requires NoNul(s)
    ensures NoNul(Quote(s))
  {
    EscapeKeepsNoNul(s);
  }

  lemma {:induction false} JoinKeepsNoNul(words: seq<string>)
    requires NoNuls(words)
    ensures NoNul(Join(words))
    decreases |words|
  {
    if words != [] {
      QuoteKeepsNoNul(words[|words| - 1]);
      JoinKeepsNoNul(words[..|words| - 1]);
    }
  }

  lemma ProgramRoundTrip(p: Project, extra: seq<string>)
    requires Launchable(p, extra)
    ensures Interpret(RemoteString(p, extra)) == Some(Launch(p.cwd, p.env, RemoteProgram(p, extra)))
  {
    DirectRoundTrip(p, extra);
    if p.agent != Shell {
      ArgvIsClean(p, extra);
      QuoteKeepsNoNul(p.cwd);
      JoinKeepsNoNul(WithEnv(p.env, RemoteProgram(p, extra)));
      WrappedTokens(DirectString(p, extra));
    }
  }

  /** The argv of an agent, word by word: its name, the project's arguments, the option that
      switches notifications on, and the caller's arguments. */
  ghost predicate IsAgentArgv(p: Project, extra: seq<string>, argv: seq<string>) {
    var n := |p.commandArgs|;
    && |argv| == n + 3 + |extra|
    && argv[0] == (if p.agent == Claude then "claude" else "codex")
    && (forall i :: 0 <= i < n ==> argv[1 + i] == p.commandArgs[i])
    && argv[n + 1] == (if p.agent == Claude then "--settings" else "-c")
    && argv[n + 2] == (if p.agent == Claude then "{\"preferredNotifChannel\":\"terminal_bell\"}" else "tui.notifications=true")
    && (forall i :: 0 <= i < |extra| ==> argv[n + 3 + i] == extra[i])
  }

  lemma AgentArgv(p: Project, extra: seq<string>)
    requires p.agent != Shell
    ensures IsAgentArgv(p, extra, AgentCommand(p, extra))
  {
    assert p.agent == Claude || p.agent == Codex;
  }

  /** Whatever bytes the directory, the arguments and the values hold, quotes and newlines and
      shell syntax included, the remote side starts exactly the intended program in exactly the
      intended directory and environment. */
  lemma RoundTrip(p: Project, extra: seq<string>)
    requires Launchable(p, extra)
    ensures var launch := Interpret(RemoteString(p, extra));
            && launch.Some? && launch.value.cwd == p.cwd && launch.value.env == p.env
            && if p.agent == Shell then launch.value.argv == ["bash", "-l"]
               else IsAgentArgv(p, extra, launch.value.argv)
  {
    ProgramRoundTrip(p, extra);
    if p.agent != Shell {
      AgentArgv(p, extra);
    }
  }

  /** What the session's process is given: ssh with a terminal, the host and one string that reads
      back as above; locally the login shell, or the agent itself. */
  lemma CommandMeaning(p: Project, extra: seq<string>, loginShell: string)
    ensures var argv := Command(p, extra, loginShell);
            if p.ssh.Some? then
              && |argv| == 4 && argv[0] == "ssh" && argv[1] == "-t" && argv[2] == p.ssh.value
              && (Launchable(p, extra) ==>
                    var launch := Interpret(argv[3]);
                    && launch.Some? && launch.value.cwd == p.cwd && launch.value.env == p.env
                    && if p.agent == Shell then launch.value.argv == ["bash", "-l"]
                       else IsAgentArgv(p, extra, launch.value.argv))
            else if p.agent == Shell then argv == [loginShell, "-l"]
            else IsAgentArgv(p, extra, argv)
  {
    if p.ssh.Some? {
      if Launchable(p, extra) {
        RoundTrip(p, extra);
      }
    } else if p.agent != Shell {
      AgentArgv(p, extra);
    }
  }

  /** The words of an agent's argv that the project and the caller decide. */
  function Chosen(p: Project, extra: seq<string>): seq<string> {
    p.commandArgs + Notify(p.agent) + extra
  }

  lemma ArgvDecides(p: Project, extra: seq<string>, q: Project, more: seq<string>)
    requires RemoteProgram(p, extra) == RemoteProgram(q, more)
    ensures p.agent == q.agent
    ensures p.agent != Shell ==> Chosen(p, extra) == Chosen(q, more)
  {
    assert "bash"[0] == 'b' && "claude"[0] == 'c' && "codex"[0] == 'c';
    assert "claude"[1] == 'l' && "codex"[1] == 'o';
    assert RemoteProgram(p, extra)[0] == RemoteProgram(q, more)[0];
    if p.agent != Shell {
      assert RemoteProgram(p, extra)[1..] == Chosen(p, extra);
      assert RemoteProgram(q, more)[1..] == Chosen(q, more);
    }
  }

  /** A pair at the end of what a side without its first word follows is where the other's is. */
  lemma SamePairSamePlace(a: seq<string>, x: seq<string>, b: seq<string>, y: seq<string>, option: string, value: string)
    requires a + [option, value] + x == b + [option, value] + y
    requires option !in x && option !in y && option != value
    ensures a == b && x == y
  {
    var all := a + [option, value] + x;
    assert all[|a|] == option && all[|a| + 1] == value;
    assert all == b + [option, value] + y;
    assert all[|b|] == option && all[|b| + 1] == value;
    if |a| < |b| {
      AfterPair(a, x, option, value, |b|);
    } else if |b| < |a| {
      AfterPair(b, y, option, value, |a|);
    }
    assert a == all[..|a|] && b == all[..|b|];
    assert x == all[|a| + 2..] && y == all[|b| + 2..];
  }

  lemma AfterPair(a: seq<string>, x: seq<string>, option: string, value: string, i: nat)
    requires |a| < i < |a| + 2 + |x| && option !in x && option != value
    ensures (a + [option, value] + x)[i] != option
  {
    if i >= |a| + 2 {
      assert (a + [option, value] + x)[i] == x[i - |a| - 2];
    }
  }

  /** Two different launches are never printed as the same string: directory, environment, agent
      and all its words agree; and if the callers' arguments do not repeat the notification option,
      the project's and the caller's arguments agree separately. */
  lemma PrintingIsInjective(p: Project, extra: seq<string>, q: Project, more: seq<string>)
    requires Launchable(p, extra) && Launchable(q, more)
    requires RemoteString(p, extra) == RemoteString(q, more)
    ensures p.cwd == q.cwd && p.env == q.env && p.agent == q.agent
    ensures p.agent != Shell ==>
              p.commandArgs + Notify(p.agent) + extra == q.commandArgs + Notify(p.agent) + more
    ensures p.agent != Shell && Notify(p.agent)[0] !in extra && Notify(p.agent)[0] !in more ==>
              p.commandArgs == q.commandArgs && extra == more
  {
    ProgramRoundTrip(p, extra);
    ProgramRoundTrip(q, more);
    ArgvDecides(p, extra, q, more);
    if p.agent != Shell && Notify(p.agent)[0] !in extra && Notify(p.agent)[0] !in more {
      var option, value := Notify(p.agent)[0], Notify(p.agent)[1];
      assert Notify(p.agent) == [option, value];
      SamePairSamePlace(p.commandArgs, extra, q.commandArgs, more, option, value);
    }
  }

  // ---- The notification setting comes after the project's options ---------------------------

  /** The value after the last occurrence of an option: the one most CLIs obey. */
  function LastSetting(argv: seq<string>, option: string): Option<string>
    decreases |argv|
  {
    if |argv| < 2 then None
    else if argv[|argv| - 2] == option then Some(argv[|argv| - 1])
    else LastSetting(argv[..|argv| - 1], option)
  }

  lemma {:induction false} LastSettingSkips(argv: seq<string>, option: string, value: string, extra: seq<string>)
    requires option !in extra && option != value
    ensures LastSetting(argv + [option, value] + extra, option) == Some(value)
    decreases |extra|
  {
    var all := argv + [option, value] + extra;
    if extra != [] {
      assert all[..|all| - 1] == argv + [option, value] + extra[..|extra| - 1];
      LastSettingSkips(argv, option, value, extra[..|extra| - 1]);
    }
  }

  /** Whatever the project's own arguments say, theirs is not the last word on the notification
      setting, and the resume or continue subcommand still comes after all options. A project
      whose last argument is an option without its value would still swallow the setting's name. */
  lemma NotificationsComeLast(p: Project, extra: seq<string>)
    requires p.agent != Shell && Notify(p.agent)[0] !in extra
    ensures LastSetting(AgentCommand(p, extra), Notify(p.agent)[0]) == Some(Notify(p.agent)[1])
    ensures AgentCommand(p, extra)[|AgentCommand(p, extra)| - |extra|..] == extra
  {
    var front := [AgentName(p.agent)] + p.commandArgs;
    assert Notify(p.agent) == [Notify(p.agent)[0], Notify(p.agent)[1]];
    LastSettingSkips(front, Notify(p.agent)[0], Notify(p.agent)[1], extra);
  }
}
