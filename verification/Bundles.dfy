/**
 What a bundle's manifest is checked for before it is installed, against what installing it looks up.
 */
module Bundles {
  import opened Wrappers
  import opened Strings
  import opened Whitespace
  import opened Placeholders

  /** A `user_config` value; `Scalar` holds the printed form of a string, number or bool. */
  datatype Value = Scalar(text: string) | Items(items: seq<Value>) | Nothing

  datatype Override = Override(command: Option<string>, args: Option<seq<string>>, env: Option<map<string, string>>)

  datatype Config = Config(
    command: Option<string>,
    args: seq<string>,
    env: map<string, string>,
    overrides: map<string, Override>)

  const EMPTY_CONFIG := Config(None, [], map[], map[])

  datatype Server = Server(kind: string, entryPoint: Option<string>, config: Option<Config>)

  datatype Manifest = Manifest(server: Option<Server>, userConfig: set<string>)

  function OrElse(o: Option<string>, default: string): string { if o.Some? then o.value else default }

  // ---- the configuration that is installed ----

  function DirEntry(server: Server): string { "${__dirname}/" + OrElse(server.entryPoint, "") }

  const PYTHON := "python3"

  function SynthesizedConfig(server: Server): Config {
    if server.kind == "node" then EMPTY_CONFIG.(command := Some("node"), args := [DirEntry(server)])
    else if server.kind == "python" then EMPTY_CONFIG.(command := Some(PYTHON), args := [DirEntry(server)])
    else if server.kind == "binary" then EMPTY_CONFIG.(command := Some(DirEntry(server)))
    else if server.kind == "uv" then
      EMPTY_CONFIG.(command := Some("uv"), args := ["run", "--project", "${__dirname}", DirEntry(server)])
    else EMPTY_CONFIG
  }

  /** The manifest names a command itself. */
  predicate Explicit(server: Server) {
    server.config.Some? && Trim(OrElse(server.config.value.command, "")) != []
  }

  /** The base configuration before overrides. */
  function Base(server: Server): Config {
    if server.config.None? then SynthesizedConfig(server)
    else
      var c := server.config.value;
      if Explicit(server) then c
      else
        var synth := SynthesizedConfig(server);
        c.(command := synth.command, args := if c.args == [] then synth.args else c.args)
  }

  /** Field by field: the platform's override where it has one, else the base. */
  function Effective(server: Server, platform: string): Config {
    var c := Base(server);
    if platform !in c.overrides then c
    else
      var over := c.overrides[platform];
      c.(command := if over.command.Some? then over.command else c.command,
         args := if over.args.Some? then over.args.value else c.args,
         env := if over.env.Some? then c.env + over.env.value else c.env)
  }

  method EffectiveConfig(m: Manifest, platform: string) returns (r: Result<Config, string>)
    ensures r.Err? <==> m.server.None?
    ensures r.Ok? ==> r.value == Effective(m.server.value, platform)
  {
    if m.server.None? {
      return Err("manifest has no server section");
    }
    var server := m.server.value;
    var config := EMPTY_CONFIG;
    if server.config.Some? {
      config := server.config.value;
      if Trim(OrElse(config.command, "")) == [] {
        var synth := SynthesizedConfig(server);
        config := config.(command := synth.command);
        if config.args == [] {
          config := config.(args := synth.args);
        }
      }
    } else {
      config := SynthesizedConfig(server);
    }
    if platform in config.overrides {
      var over := config.overrides[platform];
      if over.command.Some? {
        config := config.(command := over.command);
      }
      if over.args.Some? {
        config := config.(args := over.args.value);
      }
      if over.env.Some? {
        config := config.(env := config.env + over.env.value);
      }
    }
    r := Ok(config);
  }

  function OverrideOf(server: Server, platform: string): Override {
    if server.config.Some? && platform in server.config.value.overrides
    then server.config.value.overrides[platform] else Override(None, None, None)
  }

  /** What is installed, field by field: the override's, else the manifest's, else what is made up for the kind. */
  lemma EffectiveFields(server: Server, platform: string)
    ensures var e, over := Effective(server, platform), OverrideOf(server, platform);
            var own := if server.config.Some? then server.config.value else Config(None, [], map[], map[]);
            var entry := "${__dirname}/" + (if server.entryPoint.Some? then server.entryPoint.value else "");
            var named := own.command.Some? && Trim(own.command.value) != "";
            && (over.command.Some? ==> e.command == over.command)
            && (over.command.None? && named ==> e.command == own.command)
            && (over.command.None? && !named ==>
                  && (server.kind == "node" ==> e.command == Some("node"))
                  && (server.kind == "python" ==> e.command == Some("python3"))
                  && (server.kind == "uv" ==> e.command == Some("uv"))
                  && (server.kind == "binary" ==> e.command == Some(entry))
                  && (server.kind !in ["node", "python", "uv", "binary"] ==> e.command == None))
            && (over.args.Some? ==> e.args == over.args.value)
            && (over.args.None? && (named || own.args != []) ==> e.args == own.args)
            && (over.args.None? && !named && own.args == [] ==>
                  && (server.kind == "node" || server.kind == "python" ==> e.args == [entry])
                  && (server.kind == "uv" ==> e.args == ["run", "--project", "${__dirname}", entry])
                  && (server.kind !in ["node", "python", "uv"] ==> e.args == []))
            && (forall n :: n in e.env <==> n in own.env || (over.env.Some? && n in over.env.value))
            && (forall n :: n in e.env ==>
                  e.env[n] == if over.env.Some? && n in over.env.value then over.env.value[n] else own.env[n])
  {
    hide Trim;
    assert Trim("") == "" by { NothingToTrim(); }
  }

  lemma NothingToTrim()
    ensures Trim("") == ""
  {
  }

  // ---- the keys that are examined ----

  function Tokens(s: string): set<string> { set k | k in TokensOf(s) }

  function ArgTokens(args: seq<string>): set<string> { set a, k | a in args && k in TokensOf(a) :: k }

  function EnvTokens(env: map<string, string>): set<string> { set n, k | n in env && k in TokensOf(env[n]) :: k }

  function CommandTokens(c: Option<string>): set<string> { if c.Some? then Tokens(c.value) else {} }

  function OverrideTokens(over: Override): set<string> {
    CommandTokens(over.command)
    + (if over.args.Some? then ArgTokens(over.args.value) else {})
    + (if over.env.Some? then EnvTokens(over.env.value) else {})
  }

  /** The placeholders `manifest_warnings` goes through. */
  function Examined(server: Server, platform: string): set<string> {
    if server.config.None? then {}
    else
      var c := server.config.value;
      CommandTokens(c.command) + ArgTokens(c.args) + EnvTokens(c.env)
      + (if platform in c.overrides then OverrideTokens(c.overrides[platform]) else {})
  }

  // ---- the keys that installing looks up ----

  const USER_CONFIG := "user_config."

  /** The argument is nothing but one `${user_config.key}`. */
  function WholeUserConfigRef(s: string): (r: Option<string>)
  {
    var t := Trim(s);
    var open := "${" + USER_CONFIG;
    if |t| > |open| && t[..|open|] == open && t[|t| - 1] == '}' then
      var key := t[|open|..|t| - 1];
      if key != [] && '{' !in key && '}' !in key then Some(key) else None
    else None
  }

  /** A value that is referenced whole is looked up under its key, everything else by its placeholders. */
  function LookedUpIn(s: string): set<string> {
    match WholeUserConfigRef(s)
    case Some(key) => {USER_CONFIG + key}
    case None => Tokens(s)
  }

  function LookedUp(c: Config): set<string> {
    Tokens(Trim(OrElse(c.command, ""))) + ArgsLookedUp(c.args) + EnvLookedUp(c.env)
  }

  lemma FirstBrace(t: string, n: nat)
    requires n < |t| && t[n] == '}' && forall i :: 0 <= i < n ==> t[i] != '}'
    ensures Find(t, "}") == Some(n)
  {
    hide Find;
    assert At(t, n, "}");
    forall j | 0 <= j < n ensures !At(t, j, "}") {
      NotAt(t, j, "}", 0);
    }
  }

  /** A whole reference is a text with that one placeholder. */
  lemma WholeRefIsOneToken(s: string)
    requires WholeUserConfigRef(s).Some?
    ensures TokensOf(s) == [USER_CONFIG + WholeUserConfigRef(s).value]
  {
    hide TokensOf;
    hide Find;
    hide Trim;
    var none: Lookup := _ => None;
    var t, key := Trim(s), WholeUserConfigRef(s).value;
    TrimKeepsTokens(s);
    var u := t[2..];
    var inner := USER_CONFIG + key;
    var open := "${" + USER_CONFIG;
    assert t == open + key + [t[|t| - 1]];
    assert u == inner + "}";
    assert At(t, 0, "${");
    forall i | 0 <= i < |inner| ensures u[i] != '}' {
      assert i >= |USER_CONFIG| ==> u[i] == key[i - |USER_CONFIG|] && u[i] in key;
      assert i < |USER_CONFIG| ==> u[i] == USER_CONFIG[i];
    }
    FirstBrace(u, |inner|);
    TokenStep(t, |inner|, none);
    assert u[..|inner|] == inner && u[|inner| + 1..] == [];
    NothingToShow(none);
  }

  lemma LookedUpIsTokens(s: string)
    ensures LookedUpIn(s) == Tokens(s)
  {
    hide TokensOf;
    hide WholeUserConfigRef;
    if WholeUserConfigRef(s).Some? {
      WholeRefIsOneToken(s);
    }
  }

  function ArgsLookedUp(args: seq<string>): set<string> { set a, k | a in args && k in LookedUpIn(a) :: k }

  /** An environment entry decides by its whole reference whether it is kept, then is substituted. */
  function EnvLookedUp(env: map<string, string>): set<string> {
    set n, k | n in env && k in LookedUpIn(env[n]) + Tokens(env[n]) :: k
  }

  lemma ArgsLookedUpAre(args: seq<string>)
    ensures ArgsLookedUp(args) == ArgTokens(args)
  {
    hide TokensOf;
    hide LookedUpIn;
    forall k | k in ArgsLookedUp(args) ensures k in ArgTokens(args) {
      var a :| a in args && k in LookedUpIn(a);
      LookedUpIsTokens(a);
    }
    forall k | k in ArgTokens(args) ensures k in ArgsLookedUp(args) {
      var a :| a in args && k in TokensOf(a);
      LookedUpIsTokens(a);
      assert k in LookedUpIn(a);
    }
  }

  lemma EnvLookedUpIs(env: map<string, string>)
    ensures EnvLookedUp(env) == EnvTokens(env)
  {
    hide TokensOf;
    hide LookedUpIn;
    forall k | k in EnvLookedUp(env) ensures k in EnvTokens(env) {
      var n :| n in env && k in LookedUpIn(env[n]) + Tokens(env[n]);
      LookedUpIsTokens(env[n]);
    }
    forall k | k in EnvTokens(env) ensures k in EnvLookedUp(env) {
      var n :| n in env && k in TokensOf(env[n]);
      assert k in LookedUpIn(env[n]) + Tokens(env[n]);
    }
  }

  /** So a configuration is looked up by its placeholders and nothing else. */
  lemma LookedUpAre(c: Config)
    ensures LookedUp(c) == CommandTokens(c.command) + ArgTokens(c.args) + EnvTokens(c.env)
  {
    hide TokensOf;
    hide Trim;
    hide ArgsLookedUp;
    hide EnvLookedUp;
    hide ArgTokens;
    hide EnvTokens;
    TrimKeepsTokens(OrElse(c.command, ""));
    NothingToShow(_ => None);
    ArgsLookedUpAre(c.args);
    EnvLookedUpIs(c.env);
  }

  // ---- what is looked up has been examined ----

  function EntryPoint(server: Server): string { OrElse(server.entryPoint, "") }

  /** The path of the entry point is what is run: no command is named, and no override takes its place. */
  predicate UsesEntry(server: Server, platform: string) {
    var over := OverrideOf(server, platform);
    && !Explicit(server)
    && (if server.kind == "binary" then over.command.None?
        else server.kind in {"node", "python", "uv"} && over.args.None?
             && (server.config.None? || server.config.value.args == []))
  }

  /** The placeholders of strings that were made up, not written in the manifest, and not overridden. */
  function SynthesizedTokens(server: Server, platform: string): set<string> {
    var synth := SynthesizedConfig(server);
    var over := OverrideOf(server, platform);
    if Explicit(server) then {}
    else
      (if over.command.Some? then {} else CommandTokens(synth.command))
      + (if over.args.Some? || (server.config.Some? && server.config.value.args != []) then {} else ArgTokens(synth.args))
  }

  lemma EnvOfMerge(a: map<string, string>, b: map<string, string>)
    ensures EnvTokens(a + b) <= EnvTokens(a) + EnvTokens(b)
  {
    hide TokensOf;
    forall k | k in EnvTokens(a + b) ensures k in EnvTokens(a) + EnvTokens(b) {
      var n :| n in a + b && k in TokensOf((a + b)[n]);
      assert if n in b then (a + b)[n] == b[n] else (a + b)[n] == a[n];
    }
  }

  /** Every key looked up was examined or comes from a made-up string; those are looked up too. */
  lemma LookedUpOrSynthesized(server: Server, platform: string)
    ensures LookedUp(Effective(server, platform)) <= Examined(server, platform) + SynthesizedTokens(server, platform)
    ensures SynthesizedTokens(server, platform) <= LookedUp(Effective(server, platform))
  {
    hide TokensOf;
    hide LookedUp;
    hide Trim;
    hide ArgTokens;
    hide EnvTokens;
    hide CommandTokens;
    hide SynthesizedConfig;
    LookedUpAre(Effective(server, platform));
    EmptyTokens();
    if server.config.Some? {
      var c := server.config.value;
      if platform in c.overrides && c.overrides[platform].env.Some? {
        EnvOfMerge(c.env, c.overrides[platform].env.value);
      }
    }
    SynthesizedIsBare(server);
  }

  lemma EmptyTokens()
    ensures CommandTokens(None) == {} && ArgTokens([]) == {} && EnvTokens(map[]) == {}
  {
  }

  lemma SynthesizedIsBare(server: Server)
    ensures SynthesizedConfig(server).env == map[] && SynthesizedConfig(server).overrides == map[]
  {
  }

  // ---- the placeholders of made-up strings ----

  lemma NoDollar(s: string)
    requires '$' !in s
    ensures TokensOf(s) == []
  {
    hide TokensOf;
    hide Find;
    forall j | 0 <= j < |s| ensures !At(s, j, "${") {
      assert s[j] in s;
      NotAt(s, j, "${", 0);
    }
    NoTokens(s, _ => None);
  }

  lemma XToken()
    ensures TokensOf("${X}") == ["X"]
  {
    hide TokensOf;
    hide Find;
    var s, none: Lookup := "${X}", _ => None;
    assert At(s, 0, "${") && s[2..] == "X}";
    FirstBrace("X}", 1);
    TokenStep(s, 1, none);
    assert "X}"[..1] == "X" && "X}"[2..] == [];
    NothingToShow(none);
  }

  /** What a synthesized entry path is looked up for: the bundle directory, and the entry point's own placeholders. */
  lemma DirEntryTokens(entry: string)
    ensures TokensOf("${__dirname}/" + entry) == ["__dirname"] + TokensOf(entry)
  {
    hide TokensOf;
    hide Substituted;
    PlaceholderIsReplaced("", "__dirname", "/" + entry, _ => None);
    assert "" + "${" + "__dirname" + "}" + ("/" + entry) == "${__dirname}/" + entry;
    SlashTokens(entry);
  }

  lemma SlashTokens(entry: string)
    ensures TokensOf("/" + entry) == TokensOf(entry)
  {
    hide TokensOf;
    NotAt("/" + entry, 0, "${", 0);
    PlainStep("/" + entry, _ => None);
    assert ("/" + entry)[1..] == entry;
  }

  lemma DirnameToken()
    ensures TokensOf("${__dirname}") == ["__dirname"]
  {
    hide TokensOf;
    hide Find;
    var s, none: Lookup := "${__dirname}", _ => None;
    var name := "__dirname";
    assert At(s, 0, "${") && s[2..] == name + "}";
    forall i | 0 <= i < 9 ensures (name + "}")[i] != '}' {
      assert (name + "}")[i] == name[i] && name[i] in name;
    }
    FirstBrace(name + "}", 9);
    TokenStep(s, 9, none);
    assert (name + "}")[..9] == name && (name + "}")[10..] == [];
    NothingToShow(none);
  }

  lemma ArgTokensOfOne(a: string)
    ensures ArgTokens([a]) == Tokens(a)
  {
    hide TokensOf;
    assert a in [a];
  }

  lemma ArgTokensOfRun(entry: string)
    ensures ArgTokens(["run", "--project", "${__dirname}", entry]) == {"__dirname"} + Tokens(entry)
  {
    hide TokensOf;
    NoDollar("run");
    NoDollar("--project");
    DirnameToken();
    var args := ["run", "--project", "${__dirname}", entry];
    assert args[2] in args && args[3] in args;
    assert "__dirname" in TokensOf(args[2]);
    assert forall a :: a in args <==> a == "run" || a == "--project" || a == "${__dirname}" || a == entry;
  }

  lemma CommandsAreBare()
    ensures CommandTokens(Some("node")) == {} && CommandTokens(Some(PYTHON)) == {} && CommandTokens(Some("uv")) == {}
  {
    hide TokensOf;
    NoDollar("node");
    NoDollar(PYTHON);
    NoDollar("uv");
  }

  /** Made-up strings bring the bundle directory and the entry point's own placeholders, if they are used. */
  lemma SynthesizedAre(server: Server, platform: string)
    ensures SynthesizedTokens(server, platform) ==
            if UsesEntry(server, platform) then {"__dirname"} + Tokens(EntryPoint(server)) else {}
  {
    hide TokensOf;
    hide Explicit;
    hide ArgTokens;
    hide CommandTokens;
    var entry := DirEntry(server);
    DirEntryTokens(EntryPoint(server));
    assert Tokens(entry) == {"__dirname"} + Tokens(EntryPoint(server));
    CommandsAreBare();
    EmptyTokens();
    assert CommandTokens(Some(entry)) == Tokens(entry) by { CommandIsTokens(entry); }
    ArgTokensOfOne(entry);
    ArgTokensOfRun(entry);
  }

  lemma CommandIsTokens(c: string)
    ensures CommandTokens(Some(c)) == Tokens(c)
  {
  }

  /**
   Installing looks up only keys that were examined exactly when the entry point's path is not run,
   or the manifest uses `${__dirname}` and all of the entry point's placeholders elsewhere too.
   */
  lemma InstallLooksUpExamined(server: Server, platform: string)
    ensures LookedUp(Effective(server, platform)) <= Examined(server, platform)
            <==> (UsesEntry(server, platform) ==>
                    "__dirname" in Examined(server, platform) && Tokens(EntryPoint(server)) <= Examined(server, platform))
    ensures Explicit(server) ==> LookedUp(Effective(server, platform)) <= Examined(server, platform)
  {
    hide TokensOf;
    hide LookedUp;
    hide Examined;
    hide Effective;
    hide Explicit;
    hide SynthesizedTokens;
    LookedUpOrSynthesized(server, platform);
    SynthesizedAre(server, platform);
  }

  const UNSEEN := Server("node", Some("${X}"), None)

  /** Without a command, a placeholder in the entry point's name is looked up unexamined. */
  lemma EntryPointUnexamined(platform: string)
    ensures "X" in LookedUp(Effective(UNSEEN, platform)) && "X" !in Examined(UNSEEN, platform)
  {
    hide TokensOf;
    hide LookedUp;
    LookedUpOrSynthesized(UNSEEN, platform);
    DirEntryTokens("${X}");
    XToken();
    assert DirEntry(UNSEEN) in [DirEntry(UNSEEN)];
    assert "X" in TokensOf(DirEntry(UNSEEN));
    assert "X" in ArgTokens([DirEntry(UNSEEN)]);
  }

  // ---- warnings ----

  predicate KnownVariable(name: string) {
    name in {"__dirname", "HOME", "DESKTOP", "DOCUMENTS", "DOWNLOADS", "pathSeparator", "/"}
  }

  /** The part after `user_config.` */
  function UserConfigKey(token: string): Option<string> {
    if USER_CONFIG <= token then Some(token[|USER_CONFIG|..]) else None
  }

  datatype Warning = Undeclared(key: string) | UnknownVariable(token: string)

  function WarningFor(token: string, declared: set<string>): Option<Warning> {
    match UserConfigKey(token)
    case Some(key) => if key in declared then None else Some(Undeclared(key))
    case None => if KnownVariable(token) then None else Some(UnknownVariable(token))
  }

  /** One warning for each distinct offending placeholder, in order of first appearance. */
  method TokenWarnings(tokens: seq<string>, declared: set<string>) returns (warnings: seq<Warning>)
    ensures forall w :: w in warnings <==> exists t :: t in tokens && WarningFor(t, declared) == Some(w)
    ensures forall i, j :: 0 <= i < j < |warnings| ==> warnings[i] != warnings[j]
  {
    hide UserConfigKey;
    warnings := [];
    var seen: set<string> := {};
    for i := 0 to |tokens|
      invariant seen == set t | t in tokens[..i]
      invariant forall w :: w in warnings <==> exists t :: t in seen && WarningFor(t, declared) == Some(w)
      invariant forall i, j :: 0 <= i < j < |warnings| ==> warnings[i] != warnings[j]
    {
      var token := tokens[i];
      assert tokens[..i + 1] == tokens[..i] + [token];
      if token !in seen {
        seen := seen + {token};
        var w := WarningFor(token, declared);
        if w.Some? {
          forall t | t in tokens[..i] ensures WarningFor(t, declared) != w {
            SameWarning(t, token, declared);
          }
          warnings := warnings + [w.value];
        }
      }
    }
    assert tokens[..|tokens|] == tokens;
  }

  lemma SameWarning(a: string, b: string, declared: set<string>)
    requires a != b && WarningFor(b, declared).Some?
    ensures WarningFor(a, declared) != WarningFor(b, declared)
  {
    assert USER_CONFIG <= a ==> a == USER_CONFIG + a[|USER_CONFIG|..];
    assert USER_CONFIG <= b ==> b == USER_CONFIG + b[|USER_CONFIG|..];
  }

  /** What installing offers: the fixed variables, and the resolved user configuration. */
  function InstallLookup(fixed: string -> string, resolved: map<string, string>): Lookup {
    key =>
      if KnownVariable(key) then Some(fixed(key))
      else
        match UserConfigKey(key)
        case Some(k) => if k in resolved then Some(resolved[k]) else None
        case None => None
  }

  /** Which placeholders have a value, and which: the fixed ones, and the user's under their keys. */
  lemma InstallLookupGives(fixed: string -> string, resolved: map<string, string>, name: string)
    ensures var lookup := InstallLookup(fixed, resolved);
            && (name in ["__dirname", "HOME", "DESKTOP", "DOCUMENTS", "DOWNLOADS", "pathSeparator", "/"] ==>
                  lookup(name) == Some(fixed(name)))
            && lookup("user_config." + name) == (if name in resolved then Some(resolved[name]) else None)
    ensures !("user_config." <= name)
            && name !in ["__dirname", "HOME", "DESKTOP", "DOCUMENTS", "DOWNLOADS", "pathSeparator", "/"] ==>
              InstallLookup(fixed, resolved)(name) == None
  {
    var key := "user_config." + name;
    assert UserConfigKey(key) == Some(name);
    if KnownVariable(key) {
      KnownIsNotUserConfig(key);
    }
  }

  /** Which placeholders draw a warning, and which. */
  lemma WarningsAre(name: string, declared: set<string>)
    ensures WarningFor("user_config." + name, declared) == if name in declared then None else Some(Undeclared(name))
    ensures !("user_config." <= name) ==>
              WarningFor(name, declared) ==
              if name in ["__dirname", "HOME", "DESKTOP", "DOCUMENTS", "DOWNLOADS", "pathSeparator", "/"] then None
              else Some(UnknownVariable(name))
  {
    assert UserConfigKey("user_config." + name) == Some(name);
  }

  /** With a value for everything declared, a key has a value exactly when it draws no warning. */
  lemma ResolvesUnlessWarned(fixed: string -> string, resolved: map<string, string>, key: string)
    ensures InstallLookup(fixed, resolved)(key).Some? <==> WarningFor(key, resolved.Keys) == None
  {
    if KnownVariable(key) {
      KnownIsNotUserConfig(key);
    }
  }

  lemma KnownIsNotUserConfig(name: string)
    requires KnownVariable(name)
    ensures UserConfigKey(name) == None
  {
    NotPrefix(name, USER_CONFIG, 0);
  }

  /**
   A key that would draw a warning is looked up unexamined exactly when the entry point's path is
   run and has such a placeholder itself. `${__dirname}` draws none.
   */
  lemma EntryPointDecides(server: Server, platform: string, declared: set<string>)
    ensures (forall k :: k in LookedUp(Effective(server, platform)) && WarningFor(k, declared).Some? ==>
               k in Examined(server, platform))
            <==> (UsesEntry(server, platform) ==>
                    forall k :: k in TokensOf(EntryPoint(server)) && WarningFor(k, declared).Some? ==>
                      k in Examined(server, platform))
  {
    hide TokensOf;
    hide LookedUp;
    hide Examined;
    hide Effective;
    hide UsesEntry;
    hide SynthesizedTokens;
    LookedUpOrSynthesized(server, platform);
    SynthesizedAre(server, platform);
    assert WarningFor("__dirname", declared) == None by { KnownIsNotUserConfig("__dirname"); }
    hide WarningFor;
    forall k | k in TokensOf(EntryPoint(server)) ensures k in Tokens(EntryPoint(server)) {
    }
  }

  lemma FewerWarnings(key: string, some: set<string>, more: set<string>)
    requires some <= more && WarningFor(key, some) == None
    ensures WarningFor(key, more) == None
  {
  }

  /** Every key that installing looks up has a value. */
  predicate NothingLeftOver(m: Manifest, platform: string, fixed: string -> string, resolved: map<string, string>)
    requires m.server.Some?
  {
    forall k :: k in LookedUp(Effective(m.server.value, platform)) ==> InstallLookup(fixed, resolved)(k).Some?
  }

  /** The entry point is not what is run, or all of its placeholders are known or declared. */
  predicate EntryDrawsNoWarning(m: Manifest, platform: string)
    requires m.server.Some?
  {
    UsesEntry(m.server.value, platform) ==>
      forall k :: k in TokensOf(EntryPoint(m.server.value)) ==> WarningFor(k, m.userConfig) == None
  }

  /**
   A manifest that draws no placeholder warning has none left over once all declared configuration
   has a value, exactly when its entry point, if that is what is run, has none that would draw one.
   */
  lemma NoWarningNothingLeftOver(m: Manifest, platform: string, fixed: string -> string, resolved: map<string, string>)
    requires m.server.Some? && m.userConfig <= resolved.Keys
    requires forall t :: t in Examined(m.server.value, platform) ==> WarningFor(t, m.userConfig) == None
    ensures NothingLeftOver(m, platform, fixed, resolved) <== EntryDrawsNoWarning(m, platform)
    ensures m.userConfig == resolved.Keys ==> (NothingLeftOver(m, platform, fixed, resolved) ==> EntryDrawsNoWarning(m, platform))
  {
    hide TokensOf;
    hide LookedUp;
    hide Examined;
    hide Effective;
    hide UsesEntry;
    hide WarningFor;
    hide InstallLookup;
    var server := m.server.value;
    EntryPointDecides(server, platform, m.userConfig);
    forall k ensures InstallLookup(fixed, resolved)(k).Some? <==> WarningFor(k, resolved.Keys) == None {
      ResolvesUnlessWarned(fixed, resolved, k);
    }
    forall k | WarningFor(k, m.userConfig) == None ensures WarningFor(k, resolved.Keys) == None {
      FewerWarnings(k, m.userConfig, resolved.Keys);
    }
    EntryIsLookedUp(server, platform);
  }

  lemma EntryIsLookedUp(server: Server, platform: string)
    ensures UsesEntry(server, platform) ==> forall k :: k in TokensOf(EntryPoint(server)) ==> k in LookedUp(Effective(server, platform))
  {
    hide TokensOf;
    hide LookedUp;
    hide Examined;
    hide Effective;
    hide UsesEntry;
    hide SynthesizedTokens;
    LookedUpOrSynthesized(server, platform);
    SynthesizedAre(server, platform);
    forall k | k in TokensOf(EntryPoint(server)) ensures k in Tokens(EntryPoint(server)) {
    }
  }

  // ---- expanding the arguments ----

  function ValueText(v: Value): string
    decreases v
  {
    match v
    case Scalar(text) => text
    case Items(items) => Joined(items)
    case Nothing => ""
  }

  function Joined(items: seq<Value>): string
    decreases items
  {
    if items == [] then ""
    else if |items| == 1 then ValueText(items[0])
    else ValueText(items[0]) + "," + Joined(items[1..])
  }

  /** What one argument becomes: none, one, or one per item of a list. */
  function ExpandedArg(arg: string, resolved: map<string, Value>, lookup: Lookup): seq<string> {
    match WholeUserConfigRef(arg)
    case None => [Substituted(arg, lookup)]
    case Some(key) =>
      if key !in resolved then []
      else if resolved[key].Items? then
        seq(|resolved[key].items|, i requires 0 <= i < |resolved[key].items| => ValueText(resolved[key].items[i]))
      else [ValueText(resolved[key])]
  }

  function ExpandedArgs(args: seq<string>, resolved: map<string, Value>, lookup: Lookup): seq<string> {
    if args == [] then []
    else ExpandedArgs(args[..|args| - 1], resolved, lookup) + ExpandedArg(args[|args| - 1], resolved, lookup)
  }

  method ExpandArgs(config: seq<string>, resolved: map<string, Value>, lookup: Lookup) returns (args: seq<string>)
    ensures args == ExpandedArgs(config, resolved, lookup)
  {
    hide WholeUserConfigRef;
    hide Substituted;
    hide ValueText;
    args := [];
    for i := 0 to |config|
      invariant args == ExpandedArgs(config[..i], resolved, lookup)
    {
      var arg := config[i];
      assert config[..i + 1][..i] == config[..i];
      var whole := WholeUserConfigRef(arg);
      if whole.Some? {
        if whole.value in resolved {
          var v := resolved[whole.value];
          if v.Items? {
            var texts := seq(|v.items|, j requires 0 <= j < |v.items| => ValueText(v.items[j]));
            args := args + texts;
          } else {
            args := args + [ValueText(v)];
          }
        }
      } else {
        var text, _ := Substitute(arg, lookup);
        args := args + [text];
      }
    }
    assert config[..|config|] == config;
  }

  /** A reference standing alone in its argument, with white space around it or none. */
  lemma WholeRefOf(p: string, key: string, q: string)
    requires Blank(p) && Blank(q) && key != [] && '{' !in key && '}' !in key
    ensures WholeUserConfigRef(p + ("${user_config." + key + "}") + q) == Some(key)
  {
    hide Trim;
    hide Blank;
    var s := "${user_config." + key + "}";
    assert !White(s[0]) && s[|s| - 1] == '}';
    TrimBlanks(p, s, q);
    var open := "${" + USER_CONFIG;
    assert s[..|open|] == open && s[|open|..|s| - 1] == key;
  }

  lemma {:induction false} ExpandedConcat(a: seq<string>, b: seq<string>, resolved: map<string, Value>, lookup: Lookup)
    ensures ExpandedArgs(a + b, resolved, lookup) == ExpandedArgs(a, resolved, lookup) + ExpandedArgs(b, resolved, lookup)
    decreases |b|
  {
    hide ExpandedArg;
    if b == [] {
      assert a + b == a;
    } else {
      var n := |b| - 1;
      assert (a + b)[..|a + b| - 1] == a + b[..n] && (a + b)[|a + b| - 1] == b[n];
      ExpandedConcat(a, b[..n], resolved, lookup);
    }
  }

  /**
   An argument that is one reference becomes, in its place among the others, the user's value, one
   argument for each item of a list, or nothing when there is no value.
   */
  lemma WholeRefExpands(before: seq<string>, p: string, key: string, q: string, after: seq<string>,
                        resolved: map<string, Value>, lookup: Lookup)
    requires Blank(p) && Blank(q) && key != [] && '{' !in key && '}' !in key
    ensures var arg := p + ("${user_config." + key + "}") + q;
            var all := ExpandedArgs(before + [arg] + after, resolved, lookup);
            var a, b := ExpandedArgs(before, resolved, lookup), ExpandedArgs(after, resolved, lookup);
            && (key !in resolved ==> all == a + b)
            && (key in resolved && resolved[key].Scalar? ==> all == a + [resolved[key].text] + b)
            && (key in resolved && resolved[key].Nothing? ==> all == a + [""] + b)
            && (key in resolved && resolved[key].Items? ==>
                  && |all| == |a| + |resolved[key].items| + |b|
                  && all[..|a|] == a && all[|a| + |resolved[key].items|..] == b
                  && forall i :: 0 <= i < |resolved[key].items| && resolved[key].items[i].Scalar? ==>
                       all[|a| + i] == resolved[key].items[i].text)
  {
    hide WholeUserConfigRef;
    hide Substituted;
    hide ExpandedArgs;
    hide Blank;
    var arg := p + ("${user_config." + key + "}") + q;
    WholeRefOf(p, key, q);
    ExpandedConcat(before, [arg], resolved, lookup);
    ExpandedConcat(before + [arg], after, resolved, lookup);
    OneArg(arg, resolved, lookup);
  }

  lemma OneArg(arg: string, resolved: map<string, Value>, lookup: Lookup)
    ensures ExpandedArgs([arg], resolved, lookup) == ExpandedArg(arg, resolved, lookup)
  {
    hide ExpandedArg;
    assert [arg][..0] == [];
    assert [] + ExpandedArg(arg, resolved, lookup) == ExpandedArg(arg, resolved, lookup);
  }

  /** A list inside a list is written with commas. */
  lemma {:induction false} ListText(items: seq<Value>, last: Value)
    ensures ValueText(Nothing) == "" && ValueText(Items([])) == ""
    ensures ValueText(Items([last])) == ValueText(last)
    ensures items != [] ==> ValueText(Items(items + [last])) == ValueText(Items(items)) + "," + ValueText(last)
    decreases |items|
  {
    if |items| > 1 {
      ListText(items[1..], last);
      assert (items + [last])[1..] == items[1..] + [last];
    } else if |items| == 1 {
      assert (items + [last])[1..] == [last];
    }
  }

  /** Only a whole reference can add or drop an argument: without one they keep number and order. */
  lemma {:induction false} OneForOne(args: seq<string>, resolved: map<string, Value>, lookup: Lookup)
    requires forall a :: a in args ==> WholeUserConfigRef(a).None?
    ensures |ExpandedArgs(args, resolved, lookup)| == |args|
    ensures forall i :: 0 <= i < |args| ==> ExpandedArgs(args, resolved, lookup)[i] == Substituted(args[i], lookup)
  {
    hide WholeUserConfigRef;
    hide Substituted;
    if args != [] {
      OneForOne(args[..|args| - 1], resolved, lookup);
    }
  }
}
