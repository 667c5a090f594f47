/** The capability bridge of src/mcp/gemini.rs: tool descriptors discovered
    from capability servers become function definitions for the language
    model, and the tools and resources are listed in a system-prompt
    addendum. Both builders are push loops in the source, so both are methods
    here, each proved against a function that says what it produces. */
module CapabilityBridge {
  import opened Prelude
  import opened Json

  /** A tool descriptor as discovered from a capability server; `name` is
      the qualified `server/tool` name. */
  datatype Tool = Tool(name: string, description: Option<string>, parameters: Option<Json>)

  datatype Resource = Resource(name: string, description: Option<string>)

  /** What the model is told it may call. */
  datatype FunctionDef = FunctionDef(name: string, description: Option<string>, parameters: Json)

  /** A call the model asked for; serde reads the arguments from `args`. */
  datatype FunctionCall = FunctionCall(name: string, arguments: Json)

  const NoDescription: string := "No description provided"

  /** The model-facing name: every `/` of the qualified name becomes `.`. */
  function DottedName(name: string): string
  {
    ReplaceChar(name, '/', '.')
  }

  function DescriptionOrDefault(d: Option<string>): string
  {
    if d.Some? then d.value else NoDescription
  }

  /** One tool as the model sees it. */
  function ToFunctionDef(t: Tool): FunctionDef
  {
    FunctionDef(
      DottedName(t.name),
      Some(DescriptionOrDefault(t.description)),
      if t.parameters.Some? then t.parameters.value else EmptyObjectSchema)
  }

  /** What the conversion promises about every definition it emits: the name
      is the qualified name with each `/` rewritten to `.` and nothing else
      changed, so it holds no `/`; a description is always present, the tool's own
      when it has one; the schema is the tool's when present and otherwise
      the empty-object schema. */
  lemma FunctionDefMeaning(t: Tool)
    ensures var f := ToFunctionDef(t);
      && |f.name| == |t.name|
      && (forall i :: 0 <= i < |f.name| ==> f.name[i] != '/')
      && (forall i :: 0 <= i < |f.name| && t.name[i] != '/' ==> f.name[i] == t.name[i])
      && (forall i :: 0 <= i < |f.name| && t.name[i] == '/' ==> f.name[i] == '.')
      && f.description.Some?
      && (t.description.Some? ==> f.description.value == t.description.value)
      && (t.description.None? ==> f.description.value == "No description provided")
      && (t.parameters.Some? ==> f.parameters == t.parameters.value)
      && (t.parameters.None? ==>
            && Get(f.parameters, "type") == Some(JStr("object"))
            && Get(f.parameters, "properties") == Some(JObj([]))
            && Get(f.parameters, "required") == Some(JArr([])))
  {
  }

  /** `convert_mcp_tools_to_gemini_functions`: one definition per tool, in
      the order of the tools. */
  method ConvertTools(tools: seq<Tool>) returns (functions: seq<FunctionDef>)
    ensures |functions| == |tools|
    ensures forall i :: 0 <= i < |tools| ==> functions[i] == ToFunctionDef(tools[i])
  {
    functions := [];
    for i := 0 to |tools|
      invariant |functions| == i
      invariant forall k :: 0 <= k < i ==> functions[k] == ToFunctionDef(tools[k])
    {
      var tool := tools[i];
      var parameters := if tool.parameters.Some? then tool.parameters.value else EmptyObjectSchema;
      var description := if tool.description.Some? then tool.description.value else NoDescription;
      var name := ReplaceChar(tool.name, '/', '.');
      functions := functions + [FunctionDef(name, Some(description), parameters)];
    }
  }

  /** `generate_gemini_function_declarations`: no declarations at all
      (`None`) exactly when there are no tools, otherwise the converted list. */
  method GenerateDeclarations(tools: seq<Tool>) returns (r: Option<seq<FunctionDef>>)
    ensures r.None? <==> |tools| == 0
    ensures r.Some? ==> |r.value| == |tools|
    ensures r.Some? ==> forall i :: 0 <= i < |tools| ==> r.value[i] == ToFunctionDef(tools[i])
  {
    var functions := ConvertTools(tools);
    if |functions| == 0 {
      r := None;
    } else {
      r := Some(functions);
    }
  }

  // ----- the system-prompt addendum (`build_mcp_system_prompt`) -----

  const PromptHeader: string :=
    "\n\nYou have access to the following tools and resources through a Machine Capability Protocol (MCP) interface. "
    + "Use the function calling capability to interact with these tools; DO NOT suggest or describe function calls in your text response.\n\n"

  const ToolsTitle: string := "## Available Tools"

  const ToolsHeading: string := ToolsTitle + "\n\n"

  const ResourcesTitle: string := "## Available Resources"

  const ResourcesHeading: string := ResourcesTitle + "\n\n"

  // (written in pieces only to keep the lines short)
  const PromptFooter: string :=
    "Important: " + "Always use the function calling capability of the API, not text-based suggestions. "
    + "DO NOT write code blocks with JSON in your response."

  /** `* **name**: description` followed by a newline. */
  function Bullet(name: string, description: string): string
  {
    "* **" + name + "**: " + description + "\n"
  }

  function ToolLine(t: Tool): string
  {
    Bullet(DottedName(t.name), DescriptionOrDefault(t.description))
  }

  function ResourceLine(r: Resource): string
  {
    Bullet(r.name, DescriptionOrDefault(r.description))
  }

  function ToolLines(tools: seq<Tool>): string
  {
    if tools == [] then "" else ToolLines(tools[..|tools| - 1]) + ToolLine(tools[|tools| - 1])
  }

  function ResourceLines(resources: seq<Resource>): string
  {
    if resources == [] then ""
    else ResourceLines(resources[..|resources| - 1]) + ResourceLine(resources[|resources| - 1])
  }

  /** An empty list of tools leaves out its section, heading included. */
  function ToolsSection(tools: seq<Tool>): string
  {
    if tools == [] then "" else ToolsHeading + ToolLines(tools) + "\n"
  }

  function ResourcesSection(resources: seq<Resource>): string
  {
    if resources == [] then "" else ResourcesHeading + ResourceLines(resources) + "\n"
  }

  function SystemPrompt(tools: seq<Tool>, resources: seq<Resource>): string
  {
    PromptHeader + ToolsSection(tools) + ResourcesSection(resources) + PromptFooter
  }

  method BuildSystemPrompt(tools: seq<Tool>, resources: seq<Resource>) returns (prompt: string)
    ensures prompt == SystemPrompt(tools, resources)
  {
    prompt := PromptHeader;
    prompt := AppendToolsSection(prompt, tools);
    prompt := AppendResourcesSection(prompt, resources);
    prompt := prompt + PromptFooter;
  }

  /** The tools part of the prompt loop, appended to `prompt`. */
  method AppendToolsSection(prompt: string, tools: seq<Tool>) returns (p: string)
    ensures p == prompt + ToolsSection(tools)
  {
    p := prompt;
    if |tools| != 0 {
      p := p + ToolsHeading;
      ghost var start := p;
      for i := 0 to |tools|
        invariant p == start + ToolLines(tools[..i])
      {
        var description := if tools[i].description.Some? then tools[i].description.value else NoDescription;
        var displayName := ReplaceChar(tools[i].name, '/', '.');
        var line := "* **" + displayName + "**: " + description + "\n";
        assert tools[..i + 1][..i] == tools[..i];
        assert line == ToolLine(tools[..i + 1][i]);
        AppendAssoc(start, ToolLines(tools[..i]), line);
        p := p + line;
      }
      assert tools[..|tools|] == tools;
      AppendAssoc(prompt, ToolsHeading, ToolLines(tools));
      AppendAssoc(prompt, ToolsHeading + ToolLines(tools), "\n");
      p := p + "\n";
    }
  }

  /** The resources part of the prompt loop, appended to `prompt`. */
  method AppendResourcesSection(prompt: string, resources: seq<Resource>) returns (p: string)
    ensures p == prompt + ResourcesSection(resources)
  {
    p := prompt;
    if |resources| != 0 {
      p := p + ResourcesHeading;
      ghost var start := p;
      for i := 0 to |resources|
        invariant p == start + ResourceLines(resources[..i])
      {
        var description := if resources[i].description.Some? then resources[i].description.value else NoDescription;
        var line := "* **" + resources[i].name + "**: " + description + "\n";
        assert resources[..i + 1][..i] == resources[..i];
        assert line == ResourceLine(resources[..i + 1][i]);
        AppendAssoc(start, ResourceLines(resources[..i]), line);
        p := p + line;
      }
      assert resources[..|resources|] == resources;
      AppendAssoc(prompt, ResourcesHeading, ResourceLines(resources));
      AppendAssoc(prompt, ResourcesHeading + ResourceLines(resources), "\n");
      p := p + "\n";
    }
  }

  /** The addendum always opens with the fixed header and always closes with
      the instruction to use structured function calls. */
  lemma PromptFrame(tools: seq<Tool>, resources: seq<Resource>)
    ensures StartsWith(SystemPrompt(tools, resources), PromptHeader)
    ensures EndsWith(SystemPrompt(tools, resources), PromptFooter)
  {
    var middle := ToolsSection(tools) + ResourcesSection(resources);
    AppendAssoc(PromptHeader, ToolsSection(tools), ResourcesSection(resources));
    PrefixOfConcat(PromptHeader, middle);
    StartsWithConcat(PromptHeader + middle, PromptFooter, PromptHeader);
    SuffixOfConcat(PromptHeader + middle, PromptFooter);
  }

  /** Right after the header comes the tools heading exactly when there are
      tools; right after the tools section comes the resources heading
      exactly when there are resources. (Stated at those positions: a
      description may itself contain the heading's text.) */
  lemma SectionsPresentIffNonEmpty(tools: seq<Tool>, resources: seq<Resource>)
    ensures var p := SystemPrompt(tools, resources);
      StartsWith(p[|PromptHeader|..], ToolsTitle) <==> |tools| > 0
    ensures var p := SystemPrompt(tools, resources);
      var k := |PromptHeader| + |ToolsSection(tools)|;
      k <= |p| && (StartsWith(p[k..], ResourcesTitle) <==> |resources| > 0)
  {
    FooterOpening();
    SectionsBetween(PromptHeader, tools, resources, PromptFooter);
  }

  lemma SectionsBetween(header: string, tools: seq<Tool>, resources: seq<Resource>, footer: string)
    requires |footer| > 0 && footer[0] != '#'
    ensures var p := header + ToolsSection(tools) + ResourcesSection(resources) + footer;
      StartsWith(p[|header|..], ToolsTitle) <==> |tools| > 0
    ensures var p := header + ToolsSection(tools) + ResourcesSection(resources) + footer;
      var k := |header| + |ToolsSection(tools)|;
      k <= |p| && (StartsWith(p[k..], ResourcesTitle) <==> |resources| > 0)
  {
    var ts, rs := ToolsSection(tools), ResourcesSection(resources);
    DropSections(header, ts, rs, footer);
    RestOpening(resources, footer);
    ToolsOpening(tools, rs + footer);
  }

  lemma ToolsOpening(tools: seq<Tool>, rest: string)
    requires !StartsWith(rest, ToolsTitle)
    ensures StartsWith(ToolsSection(tools) + rest, ToolsTitle) <==> |tools| > 0
  {
    if tools == [] {
      assert ToolsSection(tools) + rest == rest;
    } else {
      HeadingOpensSection(ToolsTitle, ToolLines(tools) + "\n", rest);
    }
  }

  lemma DropSections(h: string, a: string, b: string, f: string)
    ensures (h + a + b + f)[|h|..] == a + (b + f)
    ensures (h + a + b + f)[|h| + |a|..] == b + f
  {
    AppendAssoc(h + a, b, f);
    AppendAssoc(h, a, b + f);
    DropConcat(h, a + (b + f));
    DropConcat(h + a, b + f);
  }

  lemma FooterOpening()
    ensures |PromptFooter| > 0 && PromptFooter[0] == 'I'
  {
  }

  /** What follows the tools section starts with the resources title exactly
      when there are resources, and never with the tools title. */
  lemma RestOpening(resources: seq<Resource>, footer: string)
    requires |footer| > 0 && footer[0] != '#'
    ensures StartsWith(ResourcesSection(resources) + footer, ResourcesTitle) <==> |resources| > 0
    ensures !StartsWith(ResourcesSection(resources) + footer, ToolsTitle)
  {
    var rest := ResourcesSection(resources) + footer;
    if resources == [] {
      assert rest == footer;
      NotStartsWith(rest, ToolsTitle, 0);
      NotStartsWith(rest, ResourcesTitle, 0);
    } else {
      HeadingOpensSection(ResourcesTitle, ResourceLines(resources) + "\n", footer);
      assert rest[13] == ResourcesTitle[13] == 'R';
      NotStartsWith(rest, ToolsTitle, 13);
    }
  }

  lemma HeadingOpensSection(title: string, body: string, rest: string)
    ensures StartsWith(title + "\n\n" + body + rest, title)
  {
    AppendAssoc(title, "\n\n", body);
    AppendAssoc(title, "\n\n" + body, rest);
    PrefixOfConcat(title, "\n\n" + body + rest);
  }

  lemma {:induction false} ToolLinesListEveryTool(tools: seq<Tool>, i: nat)
    requires i < |tools|
    ensures Contains(ToolLines(tools), ToolLine(tools[i]))
    decreases |tools|
  {
    var last := |tools| - 1;
    var before := ToolLines(tools[..last]);
    if i == last {
      ContainsSuffix(before, ToolLine(tools[last]));
    } else {
      assert tools[..last][i] == tools[i];
      ToolLinesListEveryTool(tools[..last], i);
      ContainsInPrefix(before, ToolLine(tools[last]), ToolLine(tools[i]));
    }
  }

  lemma {:induction false} ResourceLinesListEveryResource(resources: seq<Resource>, i: nat)
    requires i < |resources|
    ensures Contains(ResourceLines(resources), ResourceLine(resources[i]))
    decreases |resources|
  {
    var last := |resources| - 1;
    var before := ResourceLines(resources[..last]);
    if i == last {
      ContainsSuffix(before, ResourceLine(resources[last]));
    } else {
      assert resources[..last][i] == resources[i];
      ResourceLinesListEveryResource(resources[..last], i);
      ContainsInPrefix(before, ResourceLine(resources[last]), ResourceLine(resources[i]));
    }
  }

  /** Every tool is listed by its dotted name and every resource by its name
      unchanged, each with its description or the placeholder. */
  lemma PromptListsEveryCapability(tools: seq<Tool>, resources: seq<Resource>)
    ensures forall i :: 0 <= i < |tools| ==>
      Contains(SystemPrompt(tools, resources), ToolLine(tools[i]))
    ensures forall i :: 0 <= i < |resources| ==>
      Contains(SystemPrompt(tools, resources), ResourceLine(resources[i]))
  {
    var p := SystemPrompt(tools, resources);
    var ts, rs := ToolsSection(tools), ResourcesSection(resources);
    AppendAssoc(PromptHeader + ts, rs, PromptFooter);
    AppendAssoc(PromptHeader, ts, rs + PromptFooter);
    forall i | 0 <= i < |tools|
      ensures Contains(p, ToolLine(tools[i]))
    {
      ToolLinesListEveryTool(tools, i);
      ContainsExtend(ToolLines(tools), ToolLine(tools[i]), ToolsHeading, "\n");
      ContainsExtend(ts, ToolLine(tools[i]), PromptHeader, rs + PromptFooter);
    }
    forall i | 0 <= i < |resources|
      ensures Contains(p, ResourceLine(resources[i]))
    {
      ResourceLinesListEveryResource(resources, i);
      ContainsExtend(ResourceLines(resources), ResourceLine(resources[i]), ResourcesHeading, "\n");
      ContainsExtend(rs, ResourceLine(resources[i]), PromptHeader + ts, PromptFooter);
    }
  }
}
