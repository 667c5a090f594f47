/** The authorization gate of src/mcp/gemini.rs (`process_function_call`):
    the model-facing name is turned back into a qualified `server/tool`
    name, split at its first `/`, and the call runs only when the pair is
    in the host's auto-execute set or the operator allows it. The operator's
    line of input, the outcome of recording a pair in the host's set and the
    foreign `execute_tool` are inputs to the model. */
module Authorization {
  import opened Prelude
  import opened Json
  import opened Text
  import opened CapabilityBridge

  /** `name.replace(".", "/")`: the inverse rename of `DottedName`. */
  function RecoverQualifiedName(name: string): string
  {
    ReplaceChar(name, '.', '/')
  }

  /** The rename round-trips exactly for the names that hold no `.`: a
      qualified name with a dot in its tool part comes back with a `/`
      there instead. */
  lemma RenameRoundTrip(name: string)
    ensures RecoverQualifiedName(DottedName(name)) == name <==> '.' !in name
  {
    var back := RecoverQualifiedName(DottedName(name));
    if '.' in name {
      var j :| 0 <= j < |name| && name[j] == '.';
      assert back[j] == '/';
    } else {
      assert forall j :: 0 <= j < |name| ==> back[j] == name[j];
    }
  }

  const InvalidNamePrefix: string := "Invalid qualified tool name: "

  /** `splitn(2, "/")` with the two-part check: the text before the first
      `/` names the server and everything after it the tool. Empty parts are
      accepted. */
  function SplitQualified(qualified: string): (r: Result<(string, string), string>)
    ensures r.Ok? <==> '/' in qualified
    ensures r.Ok? ==> '/' !in r.value.0 && qualified == r.value.0 + "/" + r.value.1
    ensures r.Err? ==> r.error == InvalidNamePrefix + qualified
  {
    var i := IndexOf(qualified, '/');
    if i == |qualified| then Err(InvalidNamePrefix + qualified)
    else
      assert qualified == qualified[..i] + "/" + qualified[i + 1..];
      Ok((qualified[..i], qualified[i + 1..]))
  }

  /** Splitting undoes joining at a `/` when the server part holds none. */
  lemma SplitJoined(server: string, tool: string)
    requires '/' !in server
    ensures SplitQualified(server + "/" + tool) == Ok((server, tool))
  {
    var q := server + "/" + tool;
    assert q[|server|] == '/';
    assert forall j :: 0 <= j < |server| ==> q[j] == server[j];
    assert IndexOf(q, '/') == |server|;
    assert q[..|server|] == server && q[|server| + 1..] == tool;
  }

  /** `fs.read_file` names tool `read_file` of server `fs`. */
  lemma ReadFileExample()
    ensures SplitQualified(RecoverQualifiedName("fs.read_file")) == Ok(("fs", "read_file"))
  {
    assert "fs.read_file" == "fs" + "." + "read_file";
    RecoverJoined("fs", "read_file");
    SplitJoined("fs", "read_file");
  }

  /** A dotted name whose parts hold no dot comes back joined by `/`. */
  lemma RecoverJoined(server: string, tool: string)
    requires '.' !in server && '.' !in tool
    ensures RecoverQualifiedName(server + "." + tool) == server + "/" + tool
  {
    ReplaceCharAppend(server + ".", tool, '.', '/');
    ReplaceCharAppend(server, ".", '.', '/');
    ReplaceCharAbsent(server, '.', '/');
    ReplaceCharAbsent(tool, '.', '/');
    assert ReplaceChar(".", '.', '/') == "/";
  }

  /** Empty parts pass the split: `/` alone names an empty tool of an
      unnamed server. */
  lemma EmptyPartsAccepted()
    ensures SplitQualified("/") == Ok(("", ""))
    ensures SplitQualified("fs/") == Ok(("fs", ""))
  {
    SplitJoined("", "");
    SplitJoined("fs", "");
    assert "" + "/" + "" == "/";
    assert "fs" + "/" + "" == "fs/";
  }

  /** What came back from reading the operator's line. */
  datatype Answer = Line(text: string) | ReadFailed(reason: string)

  datatype Decision = Deny | AllowOnce | AllowAlways | ReadError(reason: string)

  /** The answer, trimmed and lower-cased: `n` denies, `a` or `always`
      allows from now on, anything else (the empty line included) allows
      this once. */
  function Interpret(answer: Answer): (d: Decision)
  {
    match answer
    case ReadFailed(reason) => ReadError(reason)
    case Line(text) =>
      var input := AsciiLower(Trim(text));
      if input == "n" then Deny
      else if input == "a" || input == "always" then AllowAlways
      else AllowOnce
  }

  /** What the gate decides for one call. */
  datatype GateOutcome =
    | Run(server: string, tool: string, allowedAfter: set<(string, string)>)
    | Refuse(error: string, allowedAfter: set<(string, string)>)

  /** The gate as a function of the set before the call, the call, the
      operator's answer (read only when needed) and the outcome of recording
      the pair in the host's set. */
  function Gate(allowed: set<(string, string)>, call: FunctionCall, answer: Answer,
                recordFailure: Option<string>): GateOutcome
  {
    var qualified := RecoverQualifiedName(call.name);
    match SplitQualified(qualified)
    case Err(e) => Refuse(e, allowed)
    case Ok((server, tool)) =>
      if (server, tool) in allowed then Run(server, tool, allowed)
      else Confirm(allowed, server, tool, qualified, Interpret(answer), recordFailure)
  }

  /** The gate for a pair not yet in the set, once the operator's answer
      has been read as a decision. */
  function Confirm(allowed: set<(string, string)>, server: string, tool: string, qualified: string,
                   decision: Decision, recordFailure: Option<string>): GateOutcome
  {
    match decision
    case ReadError(reason) => Refuse("Failed to read confirmation: " + reason, allowed)
    case Deny => Refuse("User denied execution of tool: " + qualified, allowed)
    case AllowOnce => Run(server, tool, allowed)
    case AllowAlways =>
      if recordFailure.Some? then Refuse(recordFailure.value, allowed)
      else Run(server, tool, allowed + {(server, tool)})
  }

  /** The set only ever grows, and by at most the pair of this call. */
  lemma GateOnlyAddsThisPair(allowed: set<(string, string)>, call: FunctionCall, answer: Answer,
                             recordFailure: Option<string>)
    ensures var g := Gate(allowed, call, answer, recordFailure);
      allowed <= g.allowedAfter
      && (g.allowedAfter != allowed ==>
            g.Run? && g.allowedAfter == allowed + {(g.server, g.tool)}
            && SplitQualified(RecoverQualifiedName(call.name)) == Ok((g.server, g.tool)))
  {
    var qualified := RecoverQualifiedName(call.name);
    var split := SplitQualified(qualified);
    if split.Ok? {
      var (server, tool) := split.value;
      if (server, tool) !in allowed {
        ConfirmOnlyAddsThisPair(allowed, server, tool, qualified, Interpret(answer), recordFailure);
      }
    }
  }

  lemma ConfirmOnlyAddsThisPair(allowed: set<(string, string)>, server: string, tool: string, qualified: string,
                                decision: Decision, recordFailure: Option<string>)
    ensures var g := Confirm(allowed, server, tool, qualified, decision, recordFailure);
      allowed <= g.allowedAfter
      && (g.allowedAfter != allowed ==> g == Run(server, tool, allowed + {(server, tool)}))
  {
  }

  /** A pair already in the set runs without the operator being asked: the
      answer makes no difference. */
  lemma AutoExecuteSkipsOperator(allowed: set<(string, string)>, call: FunctionCall, a1: Answer, a2: Answer,
                                 f1: Option<string>, f2: Option<string>, server: string, tool: string)
    requires SplitQualified(RecoverQualifiedName(call.name)) == Ok((server, tool))
    requires (server, tool) in allowed
    ensures Gate(allowed, call, a1, f1) == Gate(allowed, call, a2, f2) == Run(server, tool, allowed)
  {
  }

  /** Otherwise the answer decides: `n` refuses with the denial message and
      runs nothing, `a`/`always` adds the pair and runs, anything else runs
      once and leaves the set as it was. */
  lemma OperatorDecides(allowed: set<(string, string)>, call: FunctionCall, text: string, server: string, tool: string)
    requires SplitQualified(RecoverQualifiedName(call.name)) == Ok((server, tool))
    requires (server, tool) !in allowed
    ensures var input := AsciiLower(Trim(text));
      var g := Gate(allowed, call, Line(text), None);
      && (input == "n" <==> g.Refuse?)
      && (input == "n" ==> g.error == "User denied execution of tool: " + RecoverQualifiedName(call.name))
      && (input == "a" || input == "always" ==> g == Run(server, tool, allowed + {(server, tool)}))
      && (input != "n" && input != "a" && input != "always" ==> g == Run(server, tool, allowed))
  {
  }

  /** Once the operator has answered `always` for a pair, every later call
      of that pair runs unasked. */
  lemma AlwaysIsRemembered(allowed: set<(string, string)>, call: FunctionCall, text: string,
                           later: FunctionCall, answer: Answer, f: Option<string>)
    requires AsciiLower(Trim(text)) == "always"
    requires RecoverQualifiedName(later.name) == RecoverQualifiedName(call.name)
    requires SplitQualified(RecoverQualifiedName(call.name)).Ok?
    ensures var g := Gate(allowed, call, Line(text), None);
      g.Run? && Gate(g.allowedAfter, later, answer, f) == Run(g.server, g.tool, g.allowedAfter)
  {
    var (server, tool) := SplitQualified(RecoverQualifiedName(call.name)).value;
    AlwaysAddsPair(allowed, call, text, server, tool);
    GateOfListedPair(allowed + {(server, tool)}, later, answer, f, server, tool);
  }

  /** Answering `always` leaves the pair in the set and runs it. */
  lemma AlwaysAddsPair(allowed: set<(string, string)>, call: FunctionCall, text: string, server: string, tool: string)
    requires AsciiLower(Trim(text)) == "always"
    requires SplitQualified(RecoverQualifiedName(call.name)) == Ok((server, tool))
    ensures Gate(allowed, call, Line(text), None) == Run(server, tool, allowed + {(server, tool)})
  {
    if (server, tool) in allowed {
      GateOfListedPair(allowed, call, Line(text), None, server, tool);
      assert allowed + {(server, tool)} == allowed;
    } else {
      assert Interpret(Line(text)) == AllowAlways;
      GateOfUnlistedPair(allowed, call, Line(text), None, server, tool);
    }
  }

  lemma GateOfListedPair(allowed: set<(string, string)>, call: FunctionCall, answer: Answer,
                         f: Option<string>, server: string, tool: string)
    requires SplitQualified(RecoverQualifiedName(call.name)) == Ok((server, tool))
    requires (server, tool) in allowed
    ensures Gate(allowed, call, answer, f) == Run(server, tool, allowed)
  {
  }

  lemma GateOfUnlistedPair(allowed: set<(string, string)>, call: FunctionCall, answer: Answer,
                           f: Option<string>, server: string, tool: string)
    requires SplitQualified(RecoverQualifiedName(call.name)) == Ok((server, tool))
    requires (server, tool) !in allowed
    ensures Gate(allowed, call, answer, f)
      == Confirm(allowed, server, tool, RecoverQualifiedName(call.name), Interpret(answer), f)
  {
  }

  /** A name that holds neither `.` nor `/` is refused whatever the answer. */
  lemma UnqualifiedNameRefused(allowed: set<(string, string)>, call: FunctionCall, answer: Answer, f: Option<string>)
    requires '.' !in call.name && '/' !in call.name
    ensures Gate(allowed, call, answer, f) == Refuse(InvalidNamePrefix + call.name, allowed)
  {
    assert RecoverQualifiedName(call.name) == call.name;
  }

  /** The host's side of the gate: the auto-execute set, and (for the
      proofs) the log of the tool executions it has started. */
  class McpHost {
    var autoExecute: set<(string, string)>
    ghost var executed: seq<(string, string, Json)>

    constructor(initial: set<(string, string)>)
      ensures autoExecute == initial && executed == []
    {
      autoExecute := initial;
      executed := [];
    }

    /** `process_function_call`. `execute` stands for the foreign
        `execute_tool`; its result is passed through unchanged. */
    method ProcessFunctionCall(call: FunctionCall, answer: Answer, recordFailure: Option<string>,
                               execute: (string, string, Json) -> Result<Json, string>)
      returns (r: Result<Json, string>)
      modifies this
      ensures var g := Gate(old(autoExecute), call, answer, recordFailure);
        && autoExecute == g.allowedAfter
        && (g.Run? ==> r == execute(g.server, g.tool, call.arguments)
                       && executed == old(executed) + [(g.server, g.tool, call.arguments)])
        && (g.Refuse? ==> r == Err(g.error) && executed == old(executed))
    {
      ghost var g := Gate(autoExecute, call, answer, recordFailure);
      var qualified := ReplaceChar(call.name, '.', '/');
      var parts := SplitQualified(qualified);
      if parts.Err? {
        assert g == Refuse(parts.error, autoExecute);
        return Err(parts.error);
      }
      var (server, tool) := parts.value;
      var shouldAutoExecute := (server, tool) in autoExecute;
      if !shouldAutoExecute {
        if answer.ReadFailed? {
          assert g == Refuse("Failed to read confirmation: " + answer.reason, autoExecute);
          return Err("Failed to read confirmation: " + answer.reason);
        }
        var input := AsciiLower(Trim(answer.text));
        if input == "n" {
          assert g == Refuse("User denied execution of tool: " + qualified, autoExecute);
          return Err("User denied execution of tool: " + qualified);
        } else if input == "a" || input == "always" {
          if recordFailure.Some? {
            assert g == Refuse(recordFailure.value, autoExecute);
            return Err(recordFailure.value);
          }
          assert g == Run(server, tool, autoExecute + {(server, tool)});
          autoExecute := autoExecute + {(server, tool)};
        } else {
          assert g == Run(server, tool, autoExecute);
        }
      } else {
        assert g == Run(server, tool, autoExecute);
      }
      executed := executed + [(server, tool, call.arguments)];
      r := execute(server, tool, call.arguments);
    }
  }
}
