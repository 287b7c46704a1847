/** What `_wrap` puts around a command, and that a shell reads it as meant. */
module ShellWrap {
  import opened Options
  import opened Shell

  datatype Context = Context(oid: Option<string>, session: Option<string>, conversation: Option<string>, correlation: Option<string>)

  /** Deployment settings: is the workspace mounted, where, and does the user agent carry the oid. */
  datatype Settings = Settings(blob: bool, mount: string, stampOid: bool)

  predicate Present(s: Option<string>) {
    s.Some? && s.value != ""
  }

  function Or(s: Option<string>, default: string): string {
    if Present(s) then s.value else default
  }

  function SessionPrefix(oid: Option<string>, session: Option<string>): string {
    Or(oid, "anon") + "/" + Or(session, "nosession")
  }

  function ConversationPrefix(ctx: Context): string {
    SessionPrefix(ctx.oid, ctx.session) + "/" + Or(ctx.conversation, "default")
  }

  function StripSlashes(s: string): string {
    if s != "" && s[|s| - 1] == '/' then StripSlashes(s[..|s| - 1]) else s
  }

  function Mountpoint(cfg: Settings): string {
    var m := StripSlashes(cfg.mount);
    if m == "" then "/workspace" else m
  }

  /** The directory the command runs in. */
  function Workspace(cfg: Settings, ctx: Context): string {
    Mountpoint(cfg) + "/" + ConversationPrefix(ctx)
  }

  function UserAgent(cfg: Settings, ctx: Context): string
    requires Present(ctx.correlation)
  {
    "mcp/" + ctx.correlation.value + (if Present(ctx.oid) && cfg.stampOid then ";oid/" + ctx.oid.value else "")
  }

  function Scope(cfg: Settings, ctx: Context, command: string): string {
    if !cfg.blob then command
    else
      var q := Quote(Workspace(cfg, ctx));
      "mkdir -p " + q + " && cd " + q + " && { " + command + "\n}"
  }

  function Wrap(cfg: Settings, ctx: Context, command: string): string {
    var scoped := Scope(cfg, ctx, command);
    if !Present(ctx.correlation) then scoped
    else "export AZURE_HTTP_USER_AGENT=" + Quote(UserAgent(cfg, ctx)) + "\n" + scoped
  }

  // ------------------------------------------------------------------------- reading it

  /** The commands before the user's own. */
  function Entering(dir: string): seq<Token> {
    [Text("mkdir"), Text("-p"), Text(dir)] + ([AndIf] + ([Text("cd"), Text(dir)] + ([AndIf] + [Text("{")])))
  }

  lemma ReadBrace(tail: string, n: nat, more: Lexed)
    requires Ends(tail) && Lex(tail, n) == Some(more)
    ensures Lex(" && {" + tail, n + 2) == Some(Lexed([AndIf] + ([Text("{")] + more.tokens), more.rest))
  {
    NextBrace(tail, n, more);
    NextAnd(" " + ("{" + tail), n + 1, Lexed([Text("{")] + more.tokens, more.rest));
    assert " && {" + tail == " " + ("&&" + (" " + ("{" + tail)));
  }

  lemma PartsSplit()
    ensures " && {" == " " + ("&&" + (" " + "{"))
    ensures " && cd " == " " + ("&&" + (" " + ("cd" + " ")))
    ensures "mkdir -p " == "mkdir" + (" " + ("-p" + " "))
  {
  }

  lemma CdParts(q: string, tail: string)
    ensures " && cd " + q + tail == " " + ("&&" + (" " + ("cd" + (" " + (q + tail)))))
  {
    PartsSplit();
    Associate(" ", "&&", " ", "cd", " ", q + tail);
    assert " && cd " + q + tail == " && cd " + (q + tail);
  }

  lemma Associate(a: string, b: string, c: string, d: string, e: string, tail: string)
    ensures (a + (b + (c + (d + e)))) + tail == a + (b + (c + (d + (e + tail))))
  {
  }

  lemma MkdirParts(q: string, tail: string)
    ensures "mkdir -p " + q + tail == "mkdir" + (" " + ("-p" + (" " + (q + tail))))
  {
    PartsSplit();
    Associate("mkdir", " ", "-p", " ", "", q + tail);
    assert "mkdir" + (" " + ("-p" + (" " + ""))) == "mkdir -p ";
    assert "" + (q + tail) == q + tail;
    assert "mkdir -p " + q + tail == "mkdir -p " + (q + tail);
  }

  lemma ReadCd(dir: string, tail: string, n: nat, more: Lexed)
    requires Ends(tail) && Lex(tail, n) == Some(more)
    ensures Lex(" && cd " + Quote(dir) + tail, n + 3) == Some(Lexed([AndIf] + ([Text("cd")] + ([Text(dir)] + more.tokens)), more.rest))
  {
    NextQuoted(dir, tail, n, more);
    var m1 := Lexed([Text(dir)] + more.tokens, more.rest);
    var a := " " + (Quote(dir) + tail);
    NextSafe("cd", a, n + 1, m1);
    var m2 := Lexed([Text("cd")] + m1.tokens, more.rest);
    NextAnd(" " + ("cd" + a), n + 2, m2);
    CdParts(Quote(dir), tail);
  }

  lemma ReadMkdir(dir: string, tail: string, n: nat, more: Lexed)
    requires Ends(tail) && Lex(tail, n) == Some(more)
    ensures Lex("mkdir -p " + Quote(dir) + tail, n + 3)
         == Some(Lexed([Text("mkdir")] + ([Text("-p")] + ([Text(dir)] + more.tokens)), more.rest))
  {
    NextQuoted(dir, tail, n, more);
    var m1 := Lexed([Text(dir)] + more.tokens, more.rest);
    var a := " " + (Quote(dir) + tail);
    NextSafe("-p", a, n + 1, m1);
    var m2 := Lexed([Text("-p")] + m1.tokens, more.rest);
    var b := " " + ("-p" + a);
    LexSafe("mkdir", b, n + 2, m2);
    MkdirParts(Quote(dir), tail);
  }

  lemma EnteringTokens(dir: string)
    ensures [Text("mkdir")] + ([Text("-p")] + ([Text(dir)] + ([AndIf] + ([Text("cd")] + ([Text(dir)] + ([AndIf] + ([Text("{")] + [])))))))
         == Entering(dir)
  {
  }

  /** The three parts together, with anything after the brace. */
  lemma ReadEntering(dir: string, tail: string, n: nat)
    requires Ends(tail) && n == 0
    ensures Lex("mkdir -p " + Quote(dir) + (" && cd " + Quote(dir) + (" && {" + tail)), n + 8) == Some(Lexed(Entering(dir), tail))
  {
    var m0 := Lexed([], tail);
    assert Lex(tail, n) == Some(m0);
    hide Lex, Quote;
    ReadBrace(tail, n, m0);
    var a := " && {" + tail;
    var m1 := Lexed([AndIf] + ([Text("{")] + m0.tokens), tail);
    ReadCd(dir, a, n + 2, m1);
    var b := " && cd " + Quote(dir) + a;
    var m2 := Lexed([AndIf] + ([Text("cd")] + ([Text(dir)] + m1.tokens)), tail);
    ReadMkdir(dir, b, n + 5, m2);
    EnteringTokens(dir);
  }

  lemma ScopeParts(cfg: Settings, ctx: Context, command: string)
    requires cfg.blob
    ensures var q := Quote(Workspace(cfg, ctx));
            Scope(cfg, ctx, command) == "mkdir -p " + q + (" && cd " + q + (" && {" + (" " + command + "\n}")))
  {
    hide Quote, Workspace;
    var q := Quote(Workspace(cfg, ctx));
    RegroupScope("mkdir -p ", q, " && cd ", " && { ", command, "\n}");
    assert " && {" + (" " + command + "\n}") == " && { " + command + "\n}";
  }

  lemma RegroupScope(a: string, q: string, b: string, c: string, command: string, d: string)
    ensures a + q + b + q + c + command + d == a + q + (b + q + (c + command + d))
  {
  }

  /**
    * The scoped command, read by a shell: `mkdir` and `cd` get exactly the workspace path,
    * whatever the ids contain, and the user's command follows the brace untouched.
    */
  lemma ScopeReads(cfg: Settings, ctx: Context, command: string)
    requires cfg.blob
    ensures Lex(Scope(cfg, ctx, command), |Entering(Workspace(cfg, ctx))|)
         == Some(Lexed(Entering(Workspace(cfg, ctx)), " " + command + "\n}"))
  {
    ScopeParts(cfg, ctx, command);
    ReadEntering(Workspace(cfg, ctx), " " + command + "\n}", 0);
  }

  /** The tokens of the export line. */
  function Exporting(ua: string): seq<Token> {
    [Text("export")] + ([Text("AZURE_HTTP_USER_AGENT=" + ua)] + [Newline])
  }

  lemma NamesAreSafe()
    ensures AllSafe("AZURE_HTTP_USER_AGENT=") && AllSafe("export")
  {
  }

  lemma ReadAssignment(verb: string, name: string, value: string, tail: string, n: nat)
    requires verb != "" && AllSafe(verb) && name != "" && AllSafe(name) && n == 0
    ensures Lex(verb + (" " + (name + Quote(value) + ("\n" + tail))), n + 3)
         == Some(Lexed([Text(verb)] + ([Text(name + value)] + [Newline]), tail))
  {
    LexNewline(tail, n, Lexed([], tail));
    assert [Newline] + [] == [Newline];
    var a := "\n" + tail;
    NextAssigned(name, value, a, n + 1, Lexed([Newline], tail));
    LexSafe(verb, " " + (name + Quote(value) + a), n + 2, Lexed([Text(name + value)] + [Newline], tail));
  }

  lemma ExportSplits()
    ensures "export AZURE_HTTP_USER_AGENT=" == "export" + (" " + "AZURE_HTTP_USER_AGENT=")
  {
  }

  lemma Regroup(verb: string, name: string, q: string, tail: string)
    ensures (verb + (" " + name)) + q + "\n" + tail == verb + (" " + (name + q + ("\n" + tail)))
  {
  }

  lemma ReadExport(ua: string, tail: string, n: nat)
    requires n == 0
    ensures Lex("export AZURE_HTTP_USER_AGENT=" + Quote(ua) + "\n" + tail, n + 3) == Some(Lexed(Exporting(ua), tail))
  {
    NamesAreSafe();
    ReadAssignment("export", "AZURE_HTTP_USER_AGENT=", ua, tail, n);
    ExportSplits();
    Regroup("export", "AZURE_HTTP_USER_AGENT=", Quote(ua), tail);
  }

  /** The export line, read by a shell: the variable gets exactly the user agent. */
  lemma WrapReads(cfg: Settings, ctx: Context, command: string)
    requires Present(ctx.correlation)
    ensures Lex(Wrap(cfg, ctx, command), |Exporting(UserAgent(cfg, ctx))|)
         == Some(Lexed(Exporting(UserAgent(cfg, ctx)), Scope(cfg, ctx, command)))
  {
    ReadExport(UserAgent(cfg, ctx), Scope(cfg, ctx, command), 0);
  }

  /** Without a workspace and a correlation id the command is left as it is; otherwise it is within what is made of it, unchanged. */
  lemma CommandIsKept(cfg: Settings, ctx: Context, command: string)
    ensures exists before, after ::
              && Wrap(cfg, ctx, command) == before + command + after
              && (before == "" <==> !cfg.blob && !Present(ctx.correlation)) && after == if cfg.blob then "\n}" else ""
  {
    hide Quote, Workspace, UserAgent, Present;
    var entry := ScopeKeeps(cfg, ctx, command);
    var exit := if cfg.blob then "\n}" else "";
    if Present(ctx.correlation) {
      var line := "export AZURE_HTTP_USER_AGENT=" + Quote(UserAgent(cfg, ctx)) + "\n";
      Around(line, entry, command, exit);
      assert Wrap(cfg, ctx, command) == (line + entry) + command + exit && line + entry != "";
    } else {
      assert Wrap(cfg, ctx, command) == entry + command + exit;
    }
  }

  lemma Around(a: string, b: string, c: string, d: string)
    ensures a + (b + c + d) == (a + b) + c + d
  {
  }

  lemma ScopeKeeps(cfg: Settings, ctx: Context, command: string) returns (entry: string)
    ensures Scope(cfg, ctx, command) == entry + command + (if cfg.blob then "\n}" else "") && (entry == "" <==> !cfg.blob)
  {
    hide Quote, Workspace;
    if cfg.blob {
      var q := Quote(Workspace(cfg, ctx));
      entry := "mkdir -p " + q + " && cd " + q + " && { ";
      assert entry[0] == 'm';
    } else {
      entry := "";
      assert "" + command + "" == command;
    }
  }

  /** The user agent tells the correlation id, and the oid if and only if it is to be stamped. */
  lemma UserAgentTells(cfg: Settings, a: Context, b: Context)
    requires Present(a.correlation) && Present(b.correlation) && ';' !in a.correlation.value && ';' !in b.correlation.value
    ensures UserAgent(cfg, a) == UserAgent(cfg, b) <==>
              a.correlation == b.correlation && (!cfg.stampOid || Or(a.oid, "") == Or(b.oid, ""))
    ensures "mcp/" + a.correlation.value <= UserAgent(cfg, a)
  {
    hide UserAgent, Stamp;
    UserAgentParts(cfg, a);
    UserAgentParts(cfg, b);
    StampTells(cfg, a, b);
    if UserAgent(cfg, a) == UserAgent(cfg, b) {
      SameAfter("mcp/", a.correlation.value + Stamp(cfg, a), b.correlation.value + Stamp(cfg, b));
      SplitAtStamp(a.correlation.value, Stamp(cfg, a), b.correlation.value, Stamp(cfg, b));
    }
  }

  function Stamp(cfg: Settings, ctx: Context): string {
    if Present(ctx.oid) && cfg.stampOid then ";oid/" + ctx.oid.value else ""
  }

  lemma UserAgentParts(cfg: Settings, ctx: Context)
    requires Present(ctx.correlation)
    ensures UserAgent(cfg, ctx) == "mcp/" + (ctx.correlation.value + Stamp(cfg, ctx))
    ensures "mcp/" + ctx.correlation.value <= UserAgent(cfg, ctx)
    ensures Stamp(cfg, ctx) == "" || Stamp(cfg, ctx)[0] == ';'
  {
  }

  lemma StampTells(cfg: Settings, a: Context, b: Context)
    ensures Stamp(cfg, a) == Stamp(cfg, b) <==> !cfg.stampOid || Or(a.oid, "") == Or(b.oid, "")
  {
    if cfg.stampOid && Stamp(cfg, a) == Stamp(cfg, b) && Present(a.oid) && Present(b.oid) {
      SameAfter(";oid/", a.oid.value, b.oid.value);
    }
  }

  lemma SplitAtStamp(x: string, s: string, y: string, t: string)
    requires ';' !in x && ';' !in y && (s == "" || s[0] == ';') && (t == "" || t[0] == ';') && x + s == y + t
    ensures x == y && s == t
  {
    var u := x + s;
    assert forall i :: 0 <= i < |x| ==> u[i] == x[i] && u[i] != ';';
    assert forall i :: 0 <= i < |y| ==> u[i] == y[i] && u[i] != ';';
    assert s != "" ==> u[|x|] == ';';
    assert t != "" ==> u[|y|] == ';';
    assert |x| == |y|;
    assert x == u[..|x|] && y == u[..|y|] && s == u[|x|..] && t == u[|y|..];
  }

  lemma {:induction false} StripsSlashes(s: string)
    ensures exists n: nat :: n <= |s| && StripSlashes(s) == s[..n] && (n > 0 ==> s[n - 1] != '/') && forall i :: n <= i < |s| ==> s[i] == '/'
  {
    if s != "" && s[|s| - 1] == '/' {
      var t := s[..|s| - 1];
      StripsSlashes(t);
      var n: nat :| n <= |t| && StripSlashes(t) == t[..n] && (n > 0 ==> t[n - 1] != '/') && forall i :: n <= i < |t| ==> t[i] == '/';
      assert t[..n] == s[..n] && (n > 0 ==> s[n - 1] != '/');
      assert forall i :: n <= i < |s| ==> s[i] == if i < |t| then t[i] else '/';
    } else {
      assert s[..|s|] == s;
    }
  }

  /** The workspace lies under the mount point without its trailing slashes, or under the default if it is nothing else. */
  lemma WorkspaceIsMounted(cfg: Settings, ctx: Context)
    ensures exists n: nat :: n <= |cfg.mount| && (n > 0 ==> cfg.mount[n - 1] != '/') && (forall i :: n <= i < |cfg.mount| ==> cfg.mount[i] == '/')
              && Workspace(cfg, ctx) == (if n == 0 then "/workspace" else cfg.mount[..n]) + "/" + ConversationPrefix(ctx)
  {
    StripsSlashes(cfg.mount);
  }

  // ------------------------------------------------------------------- distinct workspaces

  predicate SlashFree(s: string) {
    '/' !in s
  }

  lemma SplitAtSlash(a: string, x: string, b: string, y: string)
    requires SlashFree(a) && SlashFree(b) && a + "/" + x == b + "/" + y
    ensures a == b && x == y
  {
    var s := a + "/" + x;
    assert forall i :: 0 <= i < |a| ==> s[i] == a[i] && s[i] != '/';
    assert forall i :: 0 <= i < |b| ==> s[i] == b[i] && s[i] != '/';
    assert s[|a|] == '/' && s[|b|] == '/';
    assert a == s[..|a|] && b == s[..|b|];
    assert x == s[|a| + 1..] && y == s[|b| + 1..];
  }

  predicate SlashFreeIds(ctx: Context) {
    SlashFree(Or(ctx.oid, "anon")) && SlashFree(Or(ctx.session, "nosession")) && SlashFree(Or(ctx.conversation, "default"))
  }

  /**
    * With slash-free ids two calls share a workspace exactly when their three ids, absent
    * ones read as their defaults, are the same.
    */
  lemma SameWorkspaceIff(cfg: Settings, a: Context, b: Context)
    requires SlashFreeIds(a) && SlashFreeIds(b)
    ensures Workspace(cfg, a) == Workspace(cfg, b) <==>
              && Or(a.oid, "anon") == Or(b.oid, "anon")
              && Or(a.session, "nosession") == Or(b.session, "nosession")
              && Or(a.conversation, "default") == Or(b.conversation, "default")
  {
    hide Or, SlashFree, Mountpoint;
    if Workspace(cfg, a) == Workspace(cfg, b) {
      SameAfter(Mountpoint(cfg) + "/", ConversationPrefix(a), ConversationPrefix(b));
      SplitThree(Or(a.oid, "anon"), Or(a.session, "nosession"), Or(a.conversation, "default"),
                 Or(b.oid, "anon"), Or(b.session, "nosession"), Or(b.conversation, "default"));
    }
  }

  lemma SameAfter(m: string, x: string, y: string)
    requires m + x == m + y
    ensures x == y
  {
    assert x == (m + x)[|m|..] && y == (m + y)[|m|..];
  }

  lemma SplitThree(a: string, b: string, c: string, x: string, y: string, z: string)
    requires SlashFree(a) && SlashFree(b) && SlashFree(x) && SlashFree(y)
    requires a + "/" + b + "/" + c == x + "/" + y + "/" + z
    ensures a == x && b == y && c == z
  {
    hide SlashFree;
    Group(a, b, c);
    Group(x, y, z);
    SplitAtSlash(a, b + "/" + c, x, y + "/" + z);
    SplitAtSlash(b, c, y, z);
  }

  lemma Group(a: string, b: string, c: string)
    ensures a + "/" + b + "/" + c == a + "/" + (b + "/" + c)
  {
  }
}
