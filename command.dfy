/** A model of the `Command` builder of package shellz: a mutable configuration record,
    its fluent setters, the resolution of the record into a go-sh session, and the
    shaping of the session's outcome by Run, Output, MustRun and MustOutput.

    The go-sh session and the process it spawns are not modelled: `sh.NewSession()`
    is the parameter `base`, and running the resolved invocation is a function
    parameter that yields an opaque success or failure.

    A Go `string` here is a sequence of Unicode code points (`seq<char>`): `TrimSpace` works
    on the decoded runes of the output, as Go's strings.TrimSpace does. The UTF-8 decoding of
    the raw output bytes is not modelled. (Module Fixtures, in contrast, represents
    `string(bytes)` as one character per byte.) */
module Shell {

  datatype Option<+T> = None | Some(value: T)

  /** An opaque error. `Wrapped` is what errorz.Wrap makes of a cause: the cause is kept. */
  datatype Error = Cause(id: nat) | Wrapped(inner: Error)

  datatype Result<+T> = Ok(value: T) | Err(error: Error)

  /** The outcome of a Must* variant: it returns a value, or it aborts (panics) with an error. */
  datatype Abortable<+T> = Returned(value: T) | Aborted(error: Error)

  /** One element of the `...interface{}` parameter list: a Go string, or any other value,
      which is opaque here. */
  datatype Param = Str(s: string) | Value(id: nat)

  /** A non-nil log hook: the package's DefaultLogf or some other function. A nil hook is None. */
  datatype Logf = DefaultLogf | CustomLogf(id: nat)

  /** One invocation of a log hook, with the arguments it was given. */
  datatype LogCall = LogCall(hook: Logf, cmd: string, params: seq<Param>)

  /** Opaque io.Reader and io.Writer values; only whether one is set matters. */
  datatype Reader = Reader(id: nat)
  datatype Writer = Writer(id: nat)

  /** The part of a go-sh session that the resolution step configures. */
  datatype Session = Session(
    dir: string,
    stdin: Reader,
    stdout: Writer,
    stderr: Writer,
    env: map<string, string>,
    showCmd: bool)

  /** A session together with the command it is asked to run. */
  datatype Invocation = Invocation(session: Session, cmd: string, params: seq<Param>)

  /** The value of every field of a Command. */
  datatype Config = Config(
    cmd: string,
    params: seq<Param>,
    logf: Option<Logf>,
    env: map<string, string>,
    dir: string,
    stdin: Option<Reader>,
    stdout: Option<Writer>,
    stderr: Option<Writer>)

  /** The parameters a list of Go strings becomes when passed as `...interface{}`. */
  function StringParams(ps: seq<string>): seq<Param>
  {
    seq(|ps|, i requires 0 <= i < |ps| => Str(ps[i]))
  }

  // ---------------------------------------------------------------------------
  // Writing the entries of a map into another map, one key at a time
  // ---------------------------------------------------------------------------

  /** The map obtained by starting from `env` and writing `m[k]` for each key `k` of `keys`,
      in that order; this is what `for k, v := range m { env[k] = v }` computes when the
      range visits the keys in the order `keys`. */
  function Overlay(env: map<string, string>, m: map<string, string>, keys: seq<string>): map<string, string>
    requires forall i :: 0 <= i < |keys| ==> keys[i] in m
    decreases |keys|
  {
    if keys == [] then env
    else
      var k := keys[|keys| - 1];
      Overlay(env, m, keys[..|keys| - 1])[k := m[k]]
  }

  /** Writing keys one at a time gives `env` overridden by the entries of `m` whose key was
      visited, whatever the order and however often a key is visited. */
  lemma {:induction false} OverlayIsUnion(env: map<string, string>, m: map<string, string>, keys: seq<string>)
    requires forall i :: 0 <= i < |keys| ==> keys[i] in m
    ensures Overlay(env, m, keys) == env + (map k | k in m && k in keys :: m[k])
    decreases |keys|
  {
    if keys != [] {
      var init := keys[..|keys| - 1];
      var last := keys[|keys| - 1];
      OverlayIsUnion(env, m, init);
      assert keys == init + [last];
      assert forall k :: k in keys <==> k in init || k == last;
    }
  }

  /** A range loop that visits every key of `m` leaves `env + m`, so two such loops that visit
      the keys in different orders agree. */
  lemma OverlayOrderIndependent(env: map<string, string>, m: map<string, string>, order1: seq<string>, order2: seq<string>)
    requires forall i :: 0 <= i < |order1| ==> order1[i] in m
    requires forall i :: 0 <= i < |order2| ==> order2[i] in m
    requires forall k :: k in m ==> k in order1
    requires forall k :: k in m ==> k in order2
    ensures Overlay(env, m, order1) == env + m
    ensures Overlay(env, m, order1) == Overlay(env, m, order2)
  {
    OverlayIsUnion(env, m, order1);
    OverlayIsUnion(env, m, order2);
    assert (map k | k in m && k in order1 :: m[k]) == m;
    assert (map k | k in m && k in order2 :: m[k]) == m;
  }

  // ---------------------------------------------------------------------------
  // strings.TrimSpace
  // ---------------------------------------------------------------------------

  /** The characters Go's unicode.IsSpace accepts (the Unicode White_Space property). */
  predicate IsSpace(ch: char)
  {
    ch == ' ' || ('\t' <= ch <= '\r') || ch == '\U{0085}' || ch == '\U{00A0}' || ch == '\U{1680}'
    || ('\U{2000}' <= ch <= '\U{200A}') || ch == '\U{2028}' || ch == '\U{2029}' || ch == '\U{202F}'
    || ch == '\U{205F}' || ch == '\U{3000}'
  }

  /** `s` without its leading white space: a suffix of `s` preceded only by white space. */
  function TrimLeft(s: string): (r: string)
    ensures |r| <= |s| && r == s[|s| - |r|..]
    ensures forall k :: 0 <= k < |s| - |r| ==> IsSpace(s[k])
    ensures r == [] || !IsSpace(r[0])
  {
    if s != [] && IsSpace(s[0]) then TrimLeft(s[1..]) else s
  }

  /** `s` without its trailing white space: a prefix of `s` followed only by white space. */
  function TrimRight(s: string): (r: string)
    ensures |r| <= |s| && r == s[..|r|]
    ensures forall k :: |r| <= k < |s| ==> IsSpace(s[k])
    ensures r == [] || !IsSpace(r[|r| - 1])
  {
    if s != [] && IsSpace(s[|s| - 1]) then TrimRight(s[..|s| - 1]) else s
  }

  /** strings.TrimSpace: the slice of `s` left when white space is removed at both ends. */
  function TrimSpace(s: string): (r: string)
    ensures r == [] || (!IsSpace(r[0]) && !IsSpace(r[|r| - 1]))
    ensures exists i :: 0 <= i <= |s| - |r| && r == s[i..][..|r|]
                        && (forall k :: 0 <= k < i ==> IsSpace(s[k]))
                        && (forall k :: i + |r| <= k < |s| ==> IsSpace(s[k]))
  {
    var l := TrimLeft(s);
    var r := TrimRight(l);
    var i := |s| - |l|;
    assert r != [] ==> r[0] == l[0];
    assert r == s[i..][..|r|];
    assert forall k :: i + |r| <= k < |s| ==> s[k] == l[k - i];
    r
  }

  /** Trimming twice is trimming once; a string is its own trim exactly when it has no white
      space at either end. */
  lemma TrimSpaceIdempotent(s: string)
    ensures TrimSpace(TrimSpace(s)) == TrimSpace(s)
    ensures TrimSpace(s) == s <==> s == [] || (!IsSpace(s[0]) && !IsSpace(s[|s| - 1]))
  {
    var t := TrimSpace(s);
    assert TrimLeft(t) == t;
    assert TrimRight(t) == t;
    if s == [] || (!IsSpace(s[0]) && !IsSpace(s[|s| - 1])) {
      assert TrimLeft(s) == s;
      assert TrimRight(s) == s;
    }
  }

  // ---------------------------------------------------------------------------
  // Result shaping
  // ---------------------------------------------------------------------------

  /** errorz.MaybeWrap: nil stays nil, an error is wrapped around its cause. */
  function MaybeWrap(err: Option<Error>): (r: Option<Error>)
    ensures r.None? <==> err.None?
    ensures r.Some? ==> r.value.Wrapped? && r.value.inner == err.value
  {
    match err
    case None => None
    case Some(e) => Some(Wrapped(e))
  }

  /** The (output, error) pair Output makes of what the session's Output returned. */
  function ShapeOutput(raw: Result<string>): (r: (string, Option<Error>))
    ensures raw.Err? ==> r == ("", Some(Wrapped(raw.error)))
    ensures raw.Ok? ==> r.1 == None && r.0 == TrimSpace(raw.value)
  {
    match raw
    case Err(e) => ("", Some(Wrapped(e)))
    case Ok(s) => (TrimSpace(s), None)
  }

  /** errorz.MaybeMustWrap after a call: abort with the wrapped error if there is one,
      otherwise return the call's value. */
  function Must<T>(v: T, err: Option<Error>): (r: Abortable<T>)
    ensures r.Aborted? <==> err.Some?
    ensures r.Returned? ==> r.value == v
    ensures r.Aborted? ==> r.error == Wrapped(err.value)
  {
    if err.Some? then Aborted(Wrapped(err.value)) else Returned(v)
  }

  // ---------------------------------------------------------------------------
  // What running a configuration means
  // ---------------------------------------------------------------------------

  /** The session and command that toSH builds from configuration `c`, starting from `base`. */
  function Resolve(c: Config, base: Session): Invocation
  {
    var session := Session(
      if c.dir != "" then c.dir else base.dir,
      if c.stdin.Some? then c.stdin.value else base.stdin,
      if c.stdout.Some? then c.stdout.value else base.stdout,
      if c.stderr.Some? then c.stderr.value else base.stderr,
      base.env + c.env,
      false);
    Invocation(session, c.cmd, c.params)
  }

  /** The calls toSH makes to the log hook of configuration `c`. */
  function HookCalls(c: Config): seq<LogCall>
  {
    if c.logf.Some? then [LogCall(c.logf.value, c.cmd, c.params)] else []
  }

  /** The error Run returns for configuration `c` when running an invocation fails with `run`. */
  function RunError(c: Config, base: Session, run: Invocation -> Option<Error>): Option<Error>
  {
    MaybeWrap(run(Resolve(c, base)))
  }

  /** The (output, error) pair Output returns for configuration `c`. */
  function OutputResult(c: Config, base: Session, output: Invocation -> Result<string>): (string, Option<Error>)
  {
    ShapeOutput(output(Resolve(c, base)))
  }

  /** The loop at the end of toSH: `shl.SetEnv(k, v)` for every entry of `m`, in an order
      the model leaves open, as Go's range over a map does. */
  method ApplyEnv(shl: Session, m: map<string, string>) returns (s: Session)
    ensures s == shl.(env := shl.env + m)
  {
    s := shl;
    var rest := m.Keys;
    ghost var order: seq<string> := [];
    while rest != {}
      invariant rest <= m.Keys
      invariant forall i :: 0 <= i < |order| ==> order[i] in m
      invariant forall k :: k in m ==> k in rest || k in order
      invariant s == shl.(env := Overlay(shl.env, m, order))
      decreases rest
    {
      var k :| k in rest;
      s := s.(env := s.env[k := m[k]]);
      order := order + [k];
      rest := rest - {k};
    }
    OverlayOrderIndependent(shl.env, m, order, order);
  }

  // ---------------------------------------------------------------------------
  // The Command builder
  // ---------------------------------------------------------------------------

  class Command {
    var cmd: string
    var params: seq<Param>
    var logf: Option<Logf>
    var env: map<string, string>
    var dir: string
    var stdin: Option<Reader>
    var stdout: Option<Writer>
    var stderr: Option<Writer>

    function State(): Config
      reads this
    {
      Config(cmd, params, logf, env, dir, stdin, stdout, stderr)
    }

    /** NewCommand: the given command and parameters, the default hook, no environment
        overrides, no directory and no stdio overrides. */
    constructor (cmd: string, params: seq<Param>)
      ensures State() == Config(cmd, params, Some(DefaultLogf), map[], "", None, None, None)
    {
      this.cmd := cmd;
      this.params := params;
      logf := Some(DefaultLogf);
      env := map[];
      dir := "";
      stdin := None;
      stdout := None;
      stderr := None;
    }

    method AddParams(ps: seq<Param>) returns (r: Command)
      modifies this`params
      ensures r == this
      ensures State() == old(State()).(params := old(params) + ps)
    {
      params := params + ps;
      r := this;
    }

    method AddParamsString(ps: seq<string>) returns (r: Command)
      modifies this`params
      ensures r == this
      ensures State() == old(State()).(params := old(params) + StringParams(ps))
    {
      var i := 0;
      while i < |ps|
        invariant 0 <= i <= |ps|
        invariant params == old(params) + StringParams(ps[..i])
      {
        assert StringParams(ps[..i + 1]) == StringParams(ps[..i]) + [Str(ps[i])];
        params := params + [Str(ps[i])];
        i := i + 1;
      }
      assert ps[..i] == ps;
      r := this;
    }

    /** SetLogf; None is Go's nil and turns logging off. */
    method SetLogf(hook: Option<Logf>) returns (r: Command)
      modifies this`logf
      ensures r == this
      ensures State() == old(State()).(logf := hook)
    {
      logf := hook;
      r := this;
    }

    method SetDir(d: string) returns (r: Command)
      modifies this`dir
      ensures r == this
      ensures State() == old(State()).(dir := d)
    {
      dir := d;
      r := this;
    }

    method SetStdin(h: Option<Reader>) returns (r: Command)
      modifies this`stdin
      ensures r == this
      ensures State() == old(State()).(stdin := h)
    {
      stdin := h;
      r := this;
    }

    method SetStdout(h: Option<Writer>) returns (r: Command)
      modifies this`stdout
      ensures r == this
      ensures State() == old(State()).(stdout := h)
    {
      stdout := h;
      r := this;
    }

    method SetStderr(h: Option<Writer>) returns (r: Command)
      modifies this`stderr
      ensures r == this
      ensures State() == old(State()).(stderr := h)
    {
      stderr := h;
      r := this;
    }

    method SetEnv(key: string, value: string) returns (r: Command)
      modifies this`env
      ensures r == this
      ensures State() == old(State()).(env := old(env)[key := value])
      ensures key in env && env[key] == value
      ensures forall k :: k != key ==> (k in env <==> k in old(env)) && (k in env ==> env[k] == old(env)[k])
    {
      env := env[key := value];
      r := this;
    }

    /** SetEnvMap: the entries of `m` are written one at a time, in an order the model leaves
        open, as Go's range over a map does. */
    method SetEnvMap(m: map<string, string>) returns (r: Command)
      modifies this`env
      ensures r == this
      ensures State() == old(State()).(env := old(env) + m)
      ensures forall k :: k !in m ==> (k in env <==> k in old(env)) && (k in env ==> env[k] == old(env)[k])
    {
      var rest := m.Keys;
      ghost var order: seq<string> := [];
      while rest != {}
        invariant rest <= m.Keys
        invariant forall i :: 0 <= i < |order| ==> order[i] in m
        invariant forall k :: k in m ==> k in rest || k in order
        invariant env == Overlay(old(env), m, order)
        decreases rest
      {
        var k :| k in rest;
        env := env[k := m[k]];
        order := order + [k];
        rest := rest - {k};
      }
      OverlayOrderIndependent(old(env), m, order, order);
      r := this;
    }

    /** toSH: the session configured by this command's fields, and the calls made to the
        log hook on the way. */
    method ToSH(base: Session) returns (inv: Invocation, logged: seq<LogCall>)
      ensures inv.session.dir == (if dir != "" then dir else base.dir)
      ensures inv.session.stdin == (if stdin.Some? then stdin.value else base.stdin)
      ensures inv.session.stdout == (if stdout.Some? then stdout.value else base.stdout)
      ensures inv.session.stderr == (if stderr.Some? then stderr.value else base.stderr)
      ensures inv.session.env == base.env + env
      ensures !inv.session.showCmd
      ensures inv.cmd == cmd && inv.params == params
      ensures logf.None? ==> logged == []
      ensures logf.Some? ==> logged == [LogCall(logf.value, cmd, params)]
      ensures inv == Resolve(State(), base) && logged == HookCalls(State())
    {
      var shl := base.(showCmd := false);
      if dir != "" {
        shl := shl.(dir := dir);
      }
      if stdin.Some? {
        shl := shl.(stdin := stdin.value);
      }
      if stdout.Some? {
        shl := shl.(stdout := stdout.value);
      }
      if stderr.Some? {
        shl := shl.(stderr := stderr.value);
      }
      shl := ApplyEnv(shl, env);
      logged := [];
      if logf.Some? {
        logged := [LogCall(logf.value, cmd, params)];
      }
      inv := Invocation(shl, cmd, params);
    }

    /** Run: resolve, log, run; a failure comes back wrapped around its cause. */
    method Run(base: Session, run: Invocation -> Option<Error>) returns (err: Option<Error>, logged: seq<LogCall>)
      ensures err.None? <==> run(Resolve(State(), base)).None?
      ensures err.Some? ==> err.value == Wrapped(run(Resolve(State(), base)).value)
      ensures err == RunError(State(), base, run)
      ensures logged == HookCalls(State())
    {
      var inv;
      inv, logged := ToSH(base);
      err := MaybeWrap(run(inv));
    }

    /** MustRun: aborts exactly when Run would return an error. */
    method MustRun(base: Session, run: Invocation -> Option<Error>) returns (o: Abortable<()>, logged: seq<LogCall>)
      ensures o.Aborted? <==> RunError(State(), base, run).Some?
      ensures o == Must((), RunError(State(), base, run))
      ensures logged == HookCalls(State())
    {
      var err;
      err, logged := Run(base, run);
      o := Must((), err);
    }

    /** Output: resolve, log, capture the output; on failure "" and the wrapped error,
        otherwise the output with white space trimmed at both ends. */
    method Output(base: Session, output: Invocation -> Result<string>) returns (out: string, err: Option<Error>, logged: seq<LogCall>)
      ensures output(Resolve(State(), base)).Err? ==>
                out == "" && err == Some(Wrapped(output(Resolve(State(), base)).error))
      ensures output(Resolve(State(), base)).Ok? ==>
                err == None && out == TrimSpace(output(Resolve(State(), base)).value)
      ensures (out, err) == OutputResult(State(), base, output)
      ensures logged == HookCalls(State())
    {
      var inv;
      inv, logged := ToSH(base);
      var raw := output(inv);
      if raw.Err? {
        return "", Some(Wrapped(raw.error)), logged;
      }
      out, err := TrimSpace(raw.value), None;
    }

    /** MustOutput: aborts exactly when Output would return an error, and otherwise returns
        what Output returns. */
    method MustOutput(base: Session, output: Invocation -> Result<string>) returns (o: Abortable<string>, logged: seq<LogCall>)
      ensures o.Aborted? <==> OutputResult(State(), base, output).1.Some?
      ensures o == Must(OutputResult(State(), base, output).0, OutputResult(State(), base, output).1)
      ensures logged == HookCalls(State())
    {
      var out, err;
      out, err, logged := Output(base, output);
      o := Must(out, err);
    }
  }

  /** AddParamsString(ps...) leaves a command in the same state as AddParams with the same
      strings passed as `...interface{}`. */
  method AddParamsStringAgrees(cmd: string, initial: seq<Param>, ps: seq<string>) returns (viaStrings: Config, viaParams: Config)
    ensures viaStrings == viaParams
    ensures viaStrings.params == initial + StringParams(ps)
  {
    var a := new Command(cmd, initial);
    var b := new Command(cmd, initial);
    var _ := a.AddParamsString(ps);
    var _ := b.AddParams(StringParams(ps));
    viaStrings, viaParams := a.State(), b.State();
  }

  /** SetEnv followed by SetEnvMap keeps the key set individually unless the map overrides it. */
  method SetEnvThenSetEnvMap(key: string, value: string, m: map<string, string>) returns (env: map<string, string>)
    ensures key !in m ==> key in env && env[key] == value
    ensures env == map[key := value] + m
  {
    var c := new Command("env", []);
    var _ := c.SetEnv(key, value);
    var _ := c.SetEnvMap(m);
    env := c.env;
  }
}
