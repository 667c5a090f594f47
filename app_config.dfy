/** The command-line client's configuration: the record kept in
    `config.toml`, its defaults, the loader's fallback, the flags that
    change it in place, and how `--show-config` displays it. */
module AppConfig {
  import opened Prelude
  import opened Utf8

  /** The stored record: `api_key`, `system_prompt`, `save_history`. */
  datatype Config = Config(apiKey: Option<string>, systemPrompt: Option<string>, saveHistory: Option<bool>)

  /** The configuration flags of the command line. */
  datatype Args = Args(
    enableHistory: bool,
    disableHistory: bool,
    setApiKey: Option<string>,
    setSystemPrompt: Option<string>,
    showConfig: bool)

  const DefaultSystemPrompt: string :=
    "You are a helpful command-line assistant for Linux. "
    + "You have access to the last few commands the user has run in their terminal. "
    + "Use this context to provide more relevant answers. When asked about commands, "
    + "provide concise and practical solutions focused on the user's needs."

  const ConfigFileName: string := "config.toml"

  /** `AppConfig::default()`: no key, the built-in prompt, history on. */
  function DefaultConfig(): (c: Config)
    ensures c.apiKey.None? && c.saveHistory == Some(true) && c.systemPrompt.Some?
  {
    Config(None, Some(DefaultSystemPrompt), Some(true))
  }

  /** `load_config`: what the file held, or the default when it could not be
      read or parsed; it never fails. */
  function LoadConfig(loaded: Result<Config, string>): (c: Config)
    ensures loaded.Err? ==> c == DefaultConfig()
    ensures loaded.Ok? ==> c == loaded.value
  {
    match loaded
    case Ok(stored) => stored
    case Err(_) => DefaultConfig()
  }

  /** `config_dir.join("config.toml")`: a separator is added unless the
      directory is empty or already ends with one. */
  function ConfigFilePath(dir: string): (path: string)
    ensures StartsWith(path, dir) && EndsWith(path, ConfigFileName)
    ensures |path| == |dir| + |ConfigFileName| || (|path| == |dir| + 1 + |ConfigFileName| && path[|dir|] == '/')
    ensures dir != [] ==> path[|path| - |ConfigFileName| - 1] == '/'
  {
    if dir == [] then ConfigFileName
    else if dir[|dir| - 1] == '/' then dir + ConfigFileName
    else dir + "/" + ConfigFileName
  }

  // ---------------------------------------------------------------------
  // Display truncation

  /** `&s[..n]` on a Rust string: the text of the first `n` bytes, or `None`
      where the slice would panic because byte `n` falls inside a
      character. */
  function BytePrefix(s: string, n: nat): (r: Option<string>)
    ensures r.Some? ==> |r.value| <= |s| && r.value == s[..|r.value|] && ByteLength(r.value) == n
    ensures r.Some? <==> IsCharBoundary(s, n)
    decreases |s|
  {
    BoundaryStep(s, n);
    if n == 0 then Some([])
    else if s == [] || CharWidth(s[0]) > n then None
    else match BytePrefix(s[1..], n - CharWidth(s[0]))
      case Some(p) => Some([s[0]] + p)
      case None => None
  }

  /** Byte `n > 0` is a boundary of `s` exactly when the first character
      fits in `n` and byte `n` less its width is a boundary of the rest. */
  lemma BoundaryStep(s: string, n: nat)
    ensures n == 0 ==> IsCharBoundary(s, n)
    ensures n > 0 ==> (IsCharBoundary(s, n) <==>
      s != [] && CharWidth(s[0]) <= n && IsCharBoundary(s[1..], n - CharWidth(s[0])))
  {
    if n == 0 {
      assert ByteLength(s[..0]) == 0;
    } else if IsCharBoundary(s, n) {
      var k :| 0 <= k <= |s| && ByteLength(s[..k]) == n;
      assert s[..k][1..] == s[1..][..k - 1];
      assert ByteLength(s[1..][..k - 1]) == n - CharWidth(s[0]);
    } else if s != [] && CharWidth(s[0]) <= n {
      forall k | 0 <= k <= |s[1..]|
        ensures ByteLength(s[1..][..k]) != n - CharWidth(s[0])
      {
        assert s[..k + 1][1..] == s[1..][..k];
      }
    }
  }

  /** The longest prefix of `s` that takes at most `n` bytes, i.e. the
      slice cut at the nearest character boundary at or below `n`. */
  function FloorPrefix(s: string, n: nat): (p: string)
    ensures |p| <= |s| && p == s[..|p|] && ByteLength(p) <= n
    ensures |p| < |s| ==> ByteLength(p) + CharWidth(s[|p|]) > n
    decreases |s|
  {
    if s == [] || CharWidth(s[0]) > n then []
    else
      var rest := FloorPrefix(s[1..], n - CharWidth(s[0]));
      assert s[1..][..|rest|] == rest;
      [s[0]] + rest
  }

  /** Where the byte slice does not panic, cutting at the character
      boundary gives the same text. */
  lemma {:induction false} FloorPrefixAgrees(s: string, n: nat)
    requires BytePrefix(s, n).Some?
    ensures FloorPrefix(s, n) == BytePrefix(s, n).value
    decreases |s|
  {
    if n != 0 {
      FloorPrefixAgrees(s[1..], n - CharWidth(s[0]));
    }
  }

  /** On ASCII text the cut takes exactly the first `n` characters. */
  lemma {:induction false} FloorPrefixAscii(s: string, n: nat)
    requires IsAscii(s) && n <= |s|
    ensures FloorPrefix(s, n) == s[..n]
    decreases |s|
  {
    if n != 0 {
      var rest := s[1..];
      assert s == [s[0]] + rest && s[..n] == [s[0]] + rest[..n - 1];
      assert s[0] as int < 0x80 && CharWidth(s[0]) == 1;
      AsciiTail(s);
      FloorPrefixAscii(rest, n - 1);
      FloorPrefixCons(s[0], rest, n);
    }
  }

  /** ASCII characters and then a wide one straddling byte `n`: the byte
      slice at `n` panics. */
  lemma {:induction false} SliceInsideCharPanics(a: string, c: char, n: nat)
    requires IsAscii(a) && |a| < n < |a| + CharWidth(c)
    ensures BytePrefix(a + [c], n).None?
    decreases |a|
  {
    if a != [] {
      assert (a + [c])[1..] == a[1..] + [c];
      SliceInsideCharPanics(a[1..], c, n - 1);
    }
  }

  /** How the key is shown, as written: its first 8 bytes and `...` when
      longer than 8 bytes, else `Set`; `None` where the slice panics. */
  function ApiKeyDisplayAsWritten(key: Option<string>): Option<string>
  {
    match key
    case None => Some("Not Set")
    case Some(k) =>
      if ByteLength(k) > 8 then
        match BytePrefix(k, 8)
        case Some(p) => Some(p + "...")
        case None => None
      else Some("Set")
  }

  /** How the prompt is shown, as written: its first 50 bytes and `...`
      when longer than 50 bytes, else all of it; `None` where the slice
      panics. */
  function SystemPromptDisplayAsWritten(prompt: Option<string>): Option<string>
  {
    match prompt
    case None => Some("Default")
    case Some(p) =>
      if ByteLength(p) > 50 then
        match BytePrefix(p, 50)
        case Some(q) => Some(q + "...")
        case None => None
      else Some(p)
  }

  /** How the key is shown, with the cut moved down to a character
      boundary. */
  function ApiKeyDisplay(key: Option<string>): string
  {
    match key
    case None => "Not Set"
    case Some(k) => if ByteLength(k) > 8 then FloorPrefix(k, 8) + "..." else "Set"
  }

  /** How the prompt is shown, with the cut moved down to a character
      boundary. */
  function SystemPromptDisplay(prompt: Option<string>): string
  {
    match prompt
    case None => "Default"
    case Some(p) => if ByteLength(p) > 50 then FloorPrefix(p, 50) + "..." else p
  }

  /** A key of 7 ASCII characters and an `é` crashes `--show-config`, and so
      does a prompt of 49 ASCII characters and an `é`; the corrected display
      shows 7 and 49 characters. */
  lemma TruncationPanicsAsWritten()
    ensures ApiKeyDisplayAsWritten(Some(seq(7, _ => 'a') + ['é'])).None?
    ensures SystemPromptDisplayAsWritten(Some(seq(49, _ => 'a') + ['é'])).None?
    ensures ApiKeyDisplay(Some(seq(7, _ => 'a') + ['é'])) == seq(7, _ => 'a') + "..."
    ensures SystemPromptDisplay(Some(seq(49, _ => 'a') + ['é'])) == seq(49, _ => 'a') + "..."
  {
    var k, p := seq(7, _ => 'a'), seq(49, _ => 'a');
    var e := 'é';
    assert CharWidth(e) == 2;
    AsciiByteLength(k);
    AsciiByteLength(p);
    EncodeAppend(k, [e]);
    EncodeAppend(p, [e]);
    SliceInsideCharPanics(k, e, 8);
    SliceInsideCharPanics(p, e, 50);
    FloorPrefixWhole(k, e, 8);
    FloorPrefixWhole(p, e, 50);
  }

  /** ASCII text followed by a character that does not fit in what is left
      of `n`: the cut keeps exactly the ASCII text. */
  lemma {:induction false} FloorPrefixWhole(a: string, c: char, n: nat)
    requires IsAscii(a) && |a| <= n < |a| + CharWidth(c)
    ensures FloorPrefix(a + [c], n) == a
    decreases |a|
  {
    if a != [] {
      var rest := a[1..];
      assert a + [c] == [a[0]] + (rest + [c]) && a == [a[0]] + rest;
      assert a[0] as int < 0x80 && CharWidth(a[0]) == 1;
      AsciiTail(a);
      FloorPrefixWhole(rest, c, n - 1);
      FloorPrefixCons(a[0], rest + [c], n);
    } else {
      assert a + [c] == [c] + [];
      FloorPrefixCons(c, [], n);
    }
  }

  /** One step of the cut: a first character that fits is kept. */
  lemma FloorPrefixCons(x: char, rest: string, n: nat)
    ensures CharWidth(x) <= n ==> FloorPrefix([x] + rest, n) == [x] + FloorPrefix(rest, n - CharWidth(x))
    ensures CharWidth(x) > n ==> FloorPrefix([x] + rest, n) == []
  {
    assert ([x] + rest)[0] == x && ([x] + rest)[1..] == rest;
  }

  lemma AsciiTail(a: string)
    requires IsAscii(a) && a != []
    ensures IsAscii(a[1..])
  {
    forall i | 0 <= i < |a[1..]| ensures a[1..][i] as int < 0x80 {
      assert a[1..][i] == a[i + 1];
    }
  }

  /** Where the as-written display does not crash, the corrected one shows
      the same. */
  lemma DisplayAgrees(key: Option<string>, prompt: Option<string>)
    ensures ApiKeyDisplayAsWritten(key).Some? ==> ApiKeyDisplayAsWritten(key).value == ApiKeyDisplay(key)
    ensures SystemPromptDisplayAsWritten(prompt).Some? ==> SystemPromptDisplayAsWritten(prompt).value == SystemPromptDisplay(prompt)
  {
    if key.Some? && ByteLength(key.value) > 8 && BytePrefix(key.value, 8).Some? {
      FloorPrefixAgrees(key.value, 8);
    }
    if prompt.Some? && ByteLength(prompt.value) > 50 && BytePrefix(prompt.value, 50).Some? {
      FloorPrefixAgrees(prompt.value, 50);
    }
  }

  /** A text longer than `n` bytes is always cut short. */
  lemma FloorPrefixProper(s: string, n: nat)
    requires ByteLength(s) > n
    ensures |FloorPrefix(s, n)| < |s|
  {
    assert s[..|s|] == s;
  }

  /** A key is never shown in full: a long one as a proper prefix of at
      most 8 bytes followed by `...`, a short one only as `Set`; a long
      prompt as a proper prefix of at most 50 bytes and `...`. */
  lemma DisplayHidesKey(key: string, prompt: string)
    ensures ByteLength(key) > 8 ==>
      ApiKeyDisplay(Some(key)) == FloorPrefix(key, 8) + "..." && |FloorPrefix(key, 8)| < |key|
    ensures ByteLength(key) <= 8 ==> ApiKeyDisplay(Some(key)) == "Set"
    ensures ByteLength(prompt) > 50 ==>
      SystemPromptDisplay(Some(prompt)) == FloorPrefix(prompt, 50) + "..." && |FloorPrefix(prompt, 50)| < |prompt|
  {
    if ByteLength(key) > 8 {
      FloorPrefixProper(key, 8);
    }
    if ByteLength(prompt) > 50 {
      FloorPrefixProper(prompt, 50);
    }
  }

  /** The `--show-config` report, with the cuts at character boundaries. */
  function ShowConfigLines(c: Config, path: string): seq<string>
  {
    [ "Current Configuration (" + path + ")",
      "  API Key: " + ApiKeyDisplay(c.apiKey),
      "  System Prompt: " + SystemPromptDisplay(c.systemPrompt),
      "  Save History: " + (if c.saveHistory != Some(false) then "Enabled" else "Disabled") ]
  }

  /** What `--show-config` prints as written: the header, then each line
      whose display did not panic; `panicked` says that a slice panicked
      after the lines printed so far. */
  datatype Report = Report(printed: seq<string>, panicked: bool)

  function ShowConfigAsWritten(c: Config, path: string): Report
  {
    var header := "Current Configuration (" + path + ")";
    match ApiKeyDisplayAsWritten(c.apiKey)
    case None => Report([header], true)
    case Some(k) =>
      match SystemPromptDisplayAsWritten(c.systemPrompt)
      case None => Report([header, "  API Key: " + k], true)
      case Some(p) =>
        Report([header, "  API Key: " + k, "  System Prompt: " + p,
                "  Save History: " + (if c.saveHistory != Some(false) then "Enabled" else "Disabled")], false)
  }

  /** The report as written is always a beginning of the corrected one, and
      all of it unless a slice panicked; it panics exactly when one of the
      two displays does. */
  lemma {:induction false} ReportAgrees(c: Config, path: string)
    ensures var r := ShowConfigAsWritten(c, path);
      1 <= |r.printed| <= 4 && r.printed == ShowConfigLines(c, path)[..|r.printed|]
    ensures ShowConfigAsWritten(c, path).panicked <==>
      ApiKeyDisplayAsWritten(c.apiKey).None? || SystemPromptDisplayAsWritten(c.systemPrompt).None?
    ensures !ShowConfigAsWritten(c, path).panicked ==> ShowConfigAsWritten(c, path).printed == ShowConfigLines(c, path)
  {
    DisplayAgrees(c.apiKey, c.systemPrompt);
    var full := ShowConfigLines(c, path);
    match ApiKeyDisplayAsWritten(c.apiKey)
    case None =>
      assert full[..1] == [full[0]];
    case Some(k) =>
      assert k == ApiKeyDisplay(c.apiKey);
      match SystemPromptDisplayAsWritten(c.systemPrompt)
      case None =>
        assert full[..2] == [full[0], full[1]];
      case Some(p) =>
        assert p == SystemPromptDisplay(c.systemPrompt);
        assert full[..4] == full;
  }

  /** On the key of 7 ASCII characters and an `é`, `--show-config` prints
      its header and panics. */
  lemma ShowConfigPanicsAsWritten(path: string)
    ensures ShowConfigAsWritten(Config(Some(seq(7, _ => 'a') + ['é']), None, None), path)
      == Report(["Current Configuration (" + path + ")"], true)
  {
    TruncationPanicsAsWritten();
  }

  // ---------------------------------------------------------------------
  // The configuration flags

  /** The history setting the flags ask for; enabling wins over disabling. */
  function HistoryTarget(args: Args): Option<bool>
  {
    if args.enableHistory then Some(true)
    else if args.disableHistory then Some(false)
    else None
  }

  /** How `handle_config_flags` ends: it returns, or a slice panics. */
  datatype Exit = Returned(value: Result<bool, string>) | Panicked

  datatype Flagged = Flagged(result: Exit, config: Config, saved: seq<Config>, lines: seq<string>)

  /** Whether the history flags change the stored setting. */
  predicate HistoryChanged(args: Args, c: Config)
  {
    HistoryTarget(args).Some? && c.saveHistory != HistoryTarget(args)
  }

  /** The record after the history flags. */
  function AfterHistory(args: Args, c: Config): Config
  {
    if HistoryChanged(args, c) then c.(saveHistory := HistoryTarget(args)) else c
  }

  function HistoryLines(args: Args, c: Config): seq<string>
  {
    if !HistoryChanged(args, c) then []
    else if HistoryTarget(args) == Some(true) then ["Conversation history enabled."]
    else ["Conversation history disabled."]
  }

  predicate KeyChanged(args: Args, c: Config)
  {
    args.setApiKey.Some? && c.apiKey != args.setApiKey
  }

  function AfterKey(args: Args, c: Config): Config
  {
    if KeyChanged(args, c) then c.(apiKey := args.setApiKey) else c
  }

  predicate PromptChanged(args: Args, c: Config)
  {
    args.setSystemPrompt.Some? && c.systemPrompt != args.setSystemPrompt
  }

  /** The record after the key and prompt flags. */
  function AfterEdits(args: Args, c: Config): Config
  {
    var k := AfterKey(args, c);
    if PromptChanged(args, k) then k.(systemPrompt := args.setSystemPrompt) else k
  }

  predicate EditsChanged(args: Args, c: Config)
  {
    KeyChanged(args, c) || PromptChanged(args, AfterKey(args, c))
  }

  function EditLines(args: Args, c: Config): seq<string>
  {
    (if KeyChanged(args, c) then ["API Key updated."] else [])
      + (if PromptChanged(args, AfterKey(args, c)) then ["System prompt updated."] else [])
  }

  /** What follows the history step, from the record `h` it left; `saved`
      holds only the saves of this part. */
  function AfterHistoryStep(args: Args, h: Config, historyChanged: bool, path: string, failure: Option<string>): Flagged
  {
    var e := AfterEdits(args, h);
    var lines := EditLines(args, h);
    if EditsChanged(args, h) then
      if failure.Some? then Flagged(Returned(Err(failure.value)), e, [], lines)
      else Flagged(Returned(Ok(true)), e, [e], lines + ["Configuration saved to: " + path])
    else if args.showConfig then
      var report := ShowConfigAsWritten(e, path);
      Flagged(if report.panicked then Panicked else Returned(Ok(true)), e, [], lines + report.printed)
    else Flagged(Returned(Ok(historyChanged)), e, [], lines)
  }

  /** `handle_config_flags` on the record `c`, with `failure` the error every
      save reports, if saving fails: the history flags first (saved at once
      when they change the setting), then the key and the prompt (saved
      together), then the report. */
  function ConfigFlags(args: Args, c: Config, path: string, failure: Option<string>): Flagged
  {
    var h := AfterHistory(args, c);
    if HistoryChanged(args, c) && failure.Some? then Flagged(Returned(Err(failure.value)), h, [], HistoryLines(args, c))
    else
      var rest := AfterHistoryStep(args, h, HistoryChanged(args, c), path, failure);
      rest.(saved := (if HistoryChanged(args, c) then [h] else []) + rest.saved, lines := HistoryLines(args, c) + rest.lines)
  }

  /** The two steps `ConfigFlags` is made of: the history step, whose
      failed save ends the handling, and the rest. */
  lemma ConfigFlagsSteps(args: Args, c: Config, path: string, failure: Option<string>)
    ensures var f := ConfigFlags(args, c, path, failure);
      var h := AfterHistory(args, c);
      var rest := AfterHistoryStep(args, h, HistoryChanged(args, c), path, failure);
      && (HistoryChanged(args, c) && failure.Some? ==> f == Flagged(Returned(Err(failure.value)), h, [], HistoryLines(args, c)))
      && (!(HistoryChanged(args, c) && failure.Some?) ==>
            f.result == rest.result && f.config == rest.config
            && f.saved == (if HistoryChanged(args, c) then [h] else []) + rest.saved
            && f.lines == HistoryLines(args, c) + rest.lines)
  {
  }

  /** Enabling history wins over disabling it; either leaves the setting at
      what it asks for, and without either the setting is left alone. */
  lemma HistoryPrecedence(args: Args, c: Config, path: string, failure: Option<string>)
    ensures args.enableHistory ==> ConfigFlags(args, c, path, failure).config.saveHistory == Some(true)
    ensures !args.enableHistory && args.disableHistory ==> ConfigFlags(args, c, path, failure).config.saveHistory == Some(false)
    ensures !args.enableHistory && !args.disableHistory ==> ConfigFlags(args, c, path, failure).config.saveHistory == c.saveHistory
  {
  }

  /** A field no flag names is never modified, and a field a flag names is
      only overwritten with what the flag says. */
  lemma UnnamedFieldsKept(args: Args, c: Config, path: string, failure: Option<string>)
    ensures args.setApiKey.None? ==> ConfigFlags(args, c, path, failure).config.apiKey == c.apiKey
    ensures args.setSystemPrompt.None? ==> ConfigFlags(args, c, path, failure).config.systemPrompt == c.systemPrompt
    ensures ConfigFlags(args, c, path, failure).config.apiKey in {c.apiKey, args.setApiKey}
    ensures ConfigFlags(args, c, path, failure).config.systemPrompt in {c.systemPrompt, args.setSystemPrompt}
  {
  }

  /** The record is saved only when a value actually changed, and each save
      stores the record as it then stands. */
  lemma SavedOnlyWhenChanged(args: Args, c: Config, path: string, failure: Option<string>)
    ensures HistoryTarget(args) == c.saveHistory || HistoryTarget(args).None? ==>
      (args.setApiKey.None? || args.setApiKey == c.apiKey) && (args.setSystemPrompt.None? || args.setSystemPrompt == c.systemPrompt)
      ==> ConfigFlags(args, c, path, failure).saved == []
    ensures (ConfigFlags(args, c, path, failure).result.Panicked? || ConfigFlags(args, c, path, failure).result.value.Ok?) && ConfigFlags(args, c, path, failure).saved != [] ==>
      ConfigFlags(args, c, path, failure).saved[|ConfigFlags(args, c, path, failure).saved| - 1] == ConfigFlags(args, c, path, failure).config
  {
  }

  /** The program exits after a key or prompt change (once saved) and after
      showing the configuration; after only a history change it exits too;
      otherwise it carries on. Showing the configuration panics instead
      when one of its displays does. */
  lemma ExitDecision(args: Args, c: Config, path: string)
    ensures var f := ConfigFlags(args, c, path, None);
      f.result == Panicked <==>
        args.showConfig && !EditsChanged(args, AfterHistory(args, c)) && ShowConfigAsWritten(f.config, path).panicked
    ensures var f := ConfigFlags(args, c, path, None);
      f.result != Panicked ==> f.result == Returned(Ok(f.config != c || args.showConfig))
  {
  }

  /** `--show-config` alone changes nothing and prints the report of the
      record as it is. */
  lemma ShowConfigOnly(args: Args, c: Config, path: string, failure: Option<string>)
    requires args.showConfig && HistoryTarget(args).None? && args.setApiKey.None? && args.setSystemPrompt.None?
    ensures var report := ShowConfigAsWritten(c, path);
      ConfigFlags(args, c, path, failure)
        == Flagged(if report.panicked then Panicked else Returned(Ok(true)), c, [], report.printed)
  {
  }

  /** Running the same flags again on the result changes and saves
      nothing. */
  lemma FlagsIdempotent(args: Args, c: Config, path: string)
    ensures ConfigFlags(args, ConfigFlags(args, c, path, None).config, path, None).config == ConfigFlags(args, c, path, None).config
    ensures ConfigFlags(args, ConfigFlags(args, c, path, None).config, path, None).saved == []
  {
  }

  // ---------------------------------------------------------------------
  // The mutable record and the method

  class AppConfig {
    var apiKey: Option<string>
    var systemPrompt: Option<string>
    var saveHistory: Option<bool>

    constructor(c: Config)
      ensures Value() == c
    {
      apiKey, systemPrompt, saveHistory := c.apiKey, c.systemPrompt, c.saveHistory;
    }

    function Value(): Config
      reads this
    {
      Config(apiKey, systemPrompt, saveHistory)
    }
  }

  /** The file the record is stored in; `failure` is what every store
      reports when the file cannot be written. */
  class ConfigFile {
    const path: string
    const failure: Option<string>
    var saved: seq<Config>

    constructor(path: string, failure: Option<string>)
      ensures this.path == path && this.failure == failure && saved == []
    {
      this.path, this.failure := path, failure;
      saved := [];
    }

    /** `save_config`. */
    method Save(c: Config) returns (r: Result<(), string>)
      modifies this
      ensures failure.Some? ==> r == Err(failure.value) && saved == old(saved)
      ensures failure.None? ==> r == Ok(()) && saved == old(saved) + [c]
    {
      if failure.Some? {
        return Err(failure.value);
      }
      saved := saved + [c];
      r := Ok(());
    }
  }

  /** Standard output, one printed line per entry. */
  class Console {
    var lines: seq<string>

    constructor()
      ensures lines == []
    {
      lines := [];
    }

    method PrintLine(s: string)
      modifies this
      ensures lines == old(lines) + [s]
    {
      lines := lines + [s];
    }
  }

  /** The history flags of `handle_config_flags`. */
  method ApplyHistoryFlags(args: Args, cfg: AppConfig, console: Console) returns (changed: bool)
    modifies cfg, console
    ensures changed == HistoryChanged(args, old(cfg.Value()))
    ensures cfg.Value() == AfterHistory(args, old(cfg.Value()))
    ensures console.lines == old(console.lines) + HistoryLines(args, old(cfg.Value()))
  {
    changed := false;
    if args.enableHistory {
      if cfg.saveHistory != Some(true) {
        cfg.saveHistory := Some(true);
        console.PrintLine("Conversation history enabled.");
        changed := true;
      }
    } else if args.disableHistory {
      if cfg.saveHistory != Some(false) {
        cfg.saveHistory := Some(false);
        console.PrintLine("Conversation history disabled.");
        changed := true;
      }
    }
  }

  /** The key and prompt flags of `handle_config_flags`. */
  method ApplyEditFlags(args: Args, cfg: AppConfig, console: Console) returns (updated: bool)
    modifies cfg, console
    ensures updated == EditsChanged(args, old(cfg.Value()))
    ensures cfg.Value() == AfterEdits(args, old(cfg.Value()))
    ensures console.lines == old(console.lines) + EditLines(args, old(cfg.Value()))
  {
    updated := false;
    if args.setApiKey.Some? {
      if cfg.apiKey != args.setApiKey {
        cfg.apiKey := args.setApiKey;
        updated := true;
        console.PrintLine("API Key updated.");
      }
    }
    if args.setSystemPrompt.Some? {
      if cfg.systemPrompt != args.setSystemPrompt {
        cfg.systemPrompt := args.setSystemPrompt;
        updated := true;
        console.PrintLine("System prompt updated.");
      }
    }
  }

  /** The `--show-config` report of `handle_config_flags`. */
  method ShowConfig(cfg: AppConfig, path: string, console: Console) returns (panicked: bool)
    modifies console
    ensures console.lines == old(console.lines) + ShowConfigAsWritten(cfg.Value(), path).printed
    ensures panicked == ShowConfigAsWritten(cfg.Value(), path).panicked
  {
    console.PrintLine("Current Configuration (" + path + ")");
    var apiKeyDisplay := ApiKeyDisplayAsWritten(cfg.apiKey);
    if apiKeyDisplay.None? {
      return true;
    }
    console.PrintLine("  API Key: " + apiKeyDisplay.value);
    var systemPromptDisplay := SystemPromptDisplayAsWritten(cfg.systemPrompt);
    if systemPromptDisplay.None? {
      return true;
    }
    console.PrintLine("  System Prompt: " + systemPromptDisplay.value);
    var saveHistoryDisplay := if cfg.saveHistory != Some(false) then "Enabled" else "Disabled";
    console.PrintLine("  Save History: " + saveHistoryDisplay);
    panicked := false;
  }

  /** `handle_config_flags` from the key and prompt flags on, once the
      history step has left the record as it is and `historyChanged` says
      whether that step changed it. */
  method FinishConfigFlags(args: Args, historyChanged: bool, cfg: AppConfig, file: ConfigFile, console: Console)
    returns (r: Exit)
    requires cfg != console as object && cfg != file as object && file != console as object
    modifies cfg, file, console
    ensures r == AfterHistoryStep(args, old(cfg.Value()), historyChanged, file.path, file.failure).result
    ensures cfg.Value() == AfterHistoryStep(args, old(cfg.Value()), historyChanged, file.path, file.failure).config
    ensures file.saved == old(file.saved) + AfterHistoryStep(args, old(cfg.Value()), historyChanged, file.path, file.failure).saved
    ensures console.lines == old(console.lines) + AfterHistoryStep(args, old(cfg.Value()), historyChanged, file.path, file.failure).lines
  {
    var configUpdated := ApplyEditFlags(args, cfg, console);
    if configUpdated {
      var saved := file.Save(cfg.Value());
      if saved.Err? {
        return Returned(Err(saved.error));
      }
      console.PrintLine("Configuration saved to: " + file.path);
      return Returned(Ok(true));
    }
    if args.showConfig {
      var panicked := ShowConfig(cfg, file.path, console);
      if panicked {
        return Panicked;
      }
      return Returned(Ok(true));
    }
    r := Returned(Ok(historyChanged && !configUpdated && !args.showConfig));
  }

  /** `handle_config_flags`. */
  method HandleConfigFlags(args: Args, cfg: AppConfig, file: ConfigFile, console: Console) returns (r: Exit)
    requires cfg != console as object && cfg != file as object && file != console as object
    modifies cfg, file, console
    ensures r == ConfigFlags(args, old(cfg.Value()), file.path, file.failure).result
    ensures cfg.Value() == ConfigFlags(args, old(cfg.Value()), file.path, file.failure).config
    ensures file.saved == old(file.saved) + ConfigFlags(args, old(cfg.Value()), file.path, file.failure).saved
    ensures console.lines == old(console.lines) + ConfigFlags(args, old(cfg.Value()), file.path, file.failure).lines
  {
    ghost var c := cfg.Value();
    ConfigFlagsSteps(args, c, file.path, file.failure);
    var historyConfigChanged := ApplyHistoryFlags(args, cfg, console);
    if historyConfigChanged {
      var saved := file.Save(cfg.Value());
      if saved.Err? {
        return Returned(Err(saved.error));
      }
    }
    r := FinishConfigFlags(args, historyConfigChanged, cfg, file, console);
  }
}
