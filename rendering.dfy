/**
  The structural renderings of descriptors (the toString(StringBuilder)
  methods): each format as a specification function, the step-by-step
  appends of the Java code as a method proved to produce it, and lemmas about
  what a rendering shows. A StringBuilder is a string value here: each append
  method takes the buffer's text and returns the extended text.
 */
module Rendering {
  import opened Wrappers
  import opened Text
  import opened OrderedMaps
  import opened Parameters

  // ----- attributes -----

  function AttributeRank(c: char): nat {
    if c == 'R' then 0 else if c == 'W' then 1 else 2
  }

  /** The attribute letters of a parameter (see AttributesShape). */
  function AttributesText(p: Parameter): string
  {
    (if p.getter.Some? then "R" else "") + (if p.setter.Some? then "W" else "") + (if p.hidden then "H" else "")
  }

  /** R for a getter, W for a setter, H for hidden: each letter is present
      exactly when its condition holds, nothing else appears, and the letters
      stand in that order. */
  lemma AttributesShape(p: Parameter)
    ensures var r := AttributesText(p);
      && ('R' in r <==> p.getter.Some?)
      && ('W' in r <==> p.setter.Some?)
      && ('H' in r <==> p.hidden)
      && (forall i :: 0 <= i < |r| ==> r[i] in "RWH")
      && (forall i, j :: 0 <= i < j < |r| ==> AttributeRank(r[i]) < AttributeRank(r[j]))
  {
  }

  /** appendAttributes. */
  method AppendAttributes(buffer: string, p: Parameter) returns (out: string)
    ensures out == buffer + AttributesText(p)
  {
    out := buffer + (if p.getter.Some? then "R" else "");
    out := out + (if p.setter.Some? then "W" else "");
    out := out + (if p.hidden then "H" else "");
  }

  /** Getter and setter start out as the library's non-null stubs and can only
      be replaced by non-null ones, so every parameter built through the
      builders renders as readable and writable. */
  lemma BuiltParameterIsReadWrite(p: Parameter)
    requires WellFormed(p)
    ensures |AttributesText(p)| >= 2 && AttributesText(p)[..2] == "RW"
  {
  }

  // ----- default value sources -----

  /** Where a missing value may come from, in priority order. */
  datatype DefaultSource =
    | SystemProperty(key: string)
    | EnvironmentVariable(key: string)
    | InputPrompt(password: bool)

  function Priority(s: DefaultSource): nat {
    match s
    case SystemProperty(_) => 0
    case EnvironmentVariable(_) => 1
    case InputPrompt(_) => 2
  }

  /** Strings.isNonEmpty: neither null nor the empty string. */
  predicate IsNonEmpty(s: Option<string>) {
    s.Some? && |s.value| > 0
  }

  /** Whether a parameter declares the given source of its default value. */
  predicate Declares(p: Parameter, s: DefaultSource) {
    match s
    case SystemProperty(key) => IsNonEmpty(p.property) && key == p.property.value
    case EnvironmentVariable(key) => IsNonEmpty(p.variable) && key == p.variable.value
    case InputPrompt(password) => IsNonEmpty(p.prompt) && password == p.password
  }

  /** The sources a parameter declares (see DefaultSourcesShape). */
  function DefaultSources(p: Parameter): seq<DefaultSource>
  {
    (if IsNonEmpty(p.property) then [SystemProperty(p.property.value)] else [])
    + (if IsNonEmpty(p.variable) then [EnvironmentVariable(p.variable.value)] else [])
    + (if IsNonEmpty(p.prompt) then [InputPrompt(p.password)] else [])
  }

  /** A parameter's default sources are exactly the ones it declares, each
      once, ordered by priority: system property, environment variable, input
      prompt. */
  lemma DefaultSourcesShape(p: Parameter)
    ensures var r := DefaultSources(p);
      && (forall s :: s in r <==> Declares(p, s))
      && (forall i, j :: 0 <= i < j < |r| ==> Priority(r[i]) < Priority(r[j]))
  {
  }

  /** #{property}, ${variable}, *** for a password prompt, ? for a prompt. */
  function SourceText(s: DefaultSource): string {
    match s
    case SystemProperty(key) => "#{" + key + "}"
    case EnvironmentVariable(key) => "${" + key + "}"
    case InputPrompt(password) => if password then "***" else "?"
  }

  function SourceTexts(ss: seq<DefaultSource>): (ts: seq<string>)
    ensures |ts| == |ss| && forall i :: 0 <= i < |ss| ==> ts[i] == SourceText(ss[i])
  {
    seq(|ss|, i requires 0 <= i < |ss| => SourceText(ss[i]))
  }

  /** The default-value sources joined by " | ", or "null" when there are none. */
  function DefaultsText(p: Parameter): string {
    var sources := DefaultSources(p);
    if |sources| == 0 then "null" else Join(SourceTexts(sources), " | ")
  }

  /** The text of the sources emitted so far, and the separator that goes
      before the next one. */
  function SourcesSoFar(emitted: seq<DefaultSource>): string {
    if |emitted| == 0 then "" else Join(SourceTexts(emitted), " | ")
  }

  function SeparatorAfter(emitted: seq<DefaultSource>): string {
    if |emitted| == 0 then "" else " | "
  }

  lemma EmitSource(emitted: seq<DefaultSource>, source: DefaultSource)
    ensures SourcesSoFar(emitted) + SeparatorAfter(emitted) + SourceText(source)
            == SourcesSoFar(emitted + [source])
  {
    if |emitted| > 0 {
      JoinSnoc(SourceTexts(emitted), SourceText(source), " | ");
      assert SourceTexts(emitted + [source]) == SourceTexts(emitted) + [SourceText(source)];
    }
  }

  /** appendDefaults, with its running separator. */
  method AppendDefaults(buffer: string, p: Parameter) returns (out: string)
    ensures out == buffer + DefaultsText(p)
  {
    var separator := "";
    ghost var emitted: seq<DefaultSource> := [];
    out := buffer;
    if IsNonEmpty(p.property) {
      var key := p.property.value;
      ghost var text := SourcesSoFar(emitted) + separator;
      AppendAssoc(buffer, SourcesSoFar(emitted), separator);
      out := out + separator;
      AppendAssoc(buffer, text, "#{");
      AppendAssoc(buffer, text + "#{", key);
      AppendAssoc(buffer, text + "#{" + key, "}");
      out := out + "#{" + key + "}";
      AppendAssoc(text, "#{", key);
      AppendAssoc(text, "#{" + key, "}");
      EmitSource(emitted, SystemProperty(key));
      separator := " | ";
      emitted := emitted + [SystemProperty(key)];
    }
    assert out == buffer + SourcesSoFar(emitted) && separator == SeparatorAfter(emitted);
    if IsNonEmpty(p.variable) {
      var key := p.variable.value;
      ghost var text := SourcesSoFar(emitted) + separator;
      AppendAssoc(buffer, SourcesSoFar(emitted), separator);
      out := out + separator;
      AppendAssoc(buffer, text, "${");
      AppendAssoc(buffer, text + "${", key);
      AppendAssoc(buffer, text + "${" + key, "}");
      out := out + "${" + key + "}";
      AppendAssoc(text, "${", key);
      AppendAssoc(text, "${" + key, "}");
      EmitSource(emitted, EnvironmentVariable(key));
      separator := " | ";
      emitted := emitted + [EnvironmentVariable(key)];
    }
    assert out == buffer + SourcesSoFar(emitted) && separator == SeparatorAfter(emitted);
    if IsNonEmpty(p.prompt) {
      AppendAssoc(buffer, SourcesSoFar(emitted), separator);
      out := out + separator;
      AppendAssoc(buffer, SourcesSoFar(emitted) + separator, SourceText(InputPrompt(p.password)));
      out := out + (if p.password then "***" else "?");
      EmitSource(emitted, InputPrompt(p.password));
      separator := " | ";
      emitted := emitted + [InputPrompt(p.password)];
    }
    assert out == buffer + SourcesSoFar(emitted) && separator == SeparatorAfter(emitted);
    assert emitted == DefaultSources(p);
    if separator == "" {
      out := out + "null";
    }
  }

  // ----- options and arguments -----

  function Open(required: bool): string {
    if required then "<" else "["
  }

  function Close(required: bool): string {
    if required then ">" else "]"
  }

  /** " | alias" for each alias, in order. */
  function AliasesText(aliases: seq<string>): string {
    if |aliases| == 0 then ""
    else AliasesText(aliases[..|aliases| - 1]) + " | " + aliases[|aliases| - 1]
  }

  /** An option: "<ATTRS NAME | ALIAS ... : TYPE> = (DEFAULTS)" for a required
      one, with [ ] for an optional one; the defaults stand outside the
      brackets. */
  function OptionText(p: Parameter): string
    requires p.kind.OptionKind?
  {
    Open(p.required) + AttributesText(p) + " " + p.name + AliasesText(p.kind.aliases)
      + " : " + p.typeName + Close(p.required) + " = (" + DefaultsText(p) + ")"
  }

  /** An argument: "<ATTRS NAME : TYPE = (DEFAULTS)>", with [ ] for an optional
      one; the defaults stand inside the brackets. */
  function ArgumentText(p: Parameter): string {
    Open(p.required) + AttributesText(p) + " " + p.name + " : " + p.typeName
      + " = (" + DefaultsText(p) + ")" + Close(p.required)
  }

  /** toString of a parameter, by its kind. */
  function ParameterText(p: Parameter): string {
    match p.kind
    case OptionKind(_) => OptionText(p)
    case ArgumentKind => ArgumentText(p)
  }

  /** Option.toString(StringBuilder). */
  method AppendOption(buffer: string, p: Parameter) returns (out: string)
    requires p.kind.OptionKind?
    ensures out == buffer + OptionText(p)
  {
    ghost var text := Open(p.required);
    out := buffer + Open(p.required);
    AppendAssoc(buffer, text, AttributesText(p));
    out := AppendAttributes(out, p);
    text := text + AttributesText(p);
    AppendAssoc(buffer, text, " ");
    out := out + " ";
    text := text + " ";
    AppendAssoc(buffer, text, p.name);
    out := out + p.name;
    text := text + p.name;
    ghost var head := text;
    var aliases := p.kind.aliases;
    var i := 0;
    while i < |aliases|
      invariant 0 <= i <= |aliases|
      invariant out == buffer + text
      invariant text == head + AliasesText(aliases[..i])
    {
      ghost var done := AliasesText(aliases[..i]);
      assert aliases[..i + 1][..i] == aliases[..i];
      assert AliasesText(aliases[..i + 1]) == done + " | " + aliases[i];
      AppendAssoc(head, done, " | ");
      AppendAssoc(head, done + " | ", aliases[i]);
      AppendAssoc(buffer, text, " | ");
      out := out + " | ";
      text := text + " | ";
      AppendAssoc(buffer, text, aliases[i]);
      out := out + aliases[i];
      text := text + aliases[i];
      i := i + 1;
    }
    assert aliases[..i] == aliases;
    AppendAssoc(buffer, text, " : ");
    out := out + " : ";
    text := text + " : ";
    AppendAssoc(buffer, text, p.typeName);
    out := out + p.typeName;
    text := text + p.typeName;
    AppendAssoc(buffer, text, Close(p.required));
    out := out + Close(p.required);
    text := text + Close(p.required);
    AppendAssoc(buffer, text, " = (");
    out := out + " = (";
    text := text + " = (";
    AppendAssoc(buffer, text, DefaultsText(p));
    out := AppendDefaults(out, p);
    text := text + DefaultsText(p);
    AppendAssoc(buffer, text, ")");
    out := out + ")";
    text := text + ")";
  }

  /** Argument.toString(StringBuilder). */
  method AppendArgument(buffer: string, p: Parameter) returns (out: string)
    ensures out == buffer + ArgumentText(p)
  {
    ghost var text := Open(p.required);
    out := buffer + Open(p.required);
    AppendAssoc(buffer, text, AttributesText(p));
    out := AppendAttributes(out, p);
    text := text + AttributesText(p);
    AppendAssoc(buffer, text, " ");
    out := out + " ";
    text := text + " ";
    AppendAssoc(buffer, text, p.name);
    out := out + p.name;
    text := text + p.name;
    AppendAssoc(buffer, text, " : ");
    out := out + " : ";
    text := text + " : ";
    AppendAssoc(buffer, text, p.typeName);
    out := out + p.typeName;
    text := text + p.typeName;
    AppendAssoc(buffer, text, " = (");
    out := out + " = (";
    text := text + " = (";
    AppendAssoc(buffer, text, DefaultsText(p));
    out := AppendDefaults(out, p);
    text := text + DefaultsText(p);
    AppendAssoc(buffer, text, ")");
    out := out + ")";
    text := text + ")";
    AppendAssoc(buffer, text, Close(p.required));
    out := out + Close(p.required);
    text := text + Close(p.required);
  }

  method AppendParameter(buffer: string, p: Parameter) returns (out: string)
    ensures out == buffer + ParameterText(p)
  {
    if p.kind.OptionKind? {
      out := AppendOption(buffer, p);
    } else {
      out := AppendArgument(buffer, p);
    }
  }

  // ----- commands -----

  /** " " followed by the rendering of each parameter, in order. */
  function ParametersText(ps: seq<Parameter>): string {
    if |ps| == 0 then ""
    else ParametersText(ps[..|ps| - 1]) + " " + ParameterText(ps[|ps| - 1])
  }

  /** The values of an options or arguments map, each preceded by a space
      (the forEach of Command.toString). */
  method AppendParameters(buffer: string, ps: seq<Parameter>) returns (out: string)
    ensures out == buffer + ParametersText(ps)
  {
    out := buffer;
    var i := 0;
    while i < |ps|
      invariant 0 <= i <= |ps|
      invariant out == buffer + ParametersText(ps[..i])
    {
      ghost var done := ParametersText(ps[..i]);
      assert ps[..i + 1][..i] == ps[..i];
      assert ParametersText(ps[..i + 1]) == done + " " + ParameterText(ps[i]);
      AppendAssoc(buffer, done, " ");
      out := out + " ";
      AppendAssoc(buffer, done + " ", ParameterText(ps[i]));
      out := AppendParameter(out, ps[i]);
      i := i + 1;
    }
    assert ps[..i] == ps;
  }

  /** " (a | b | c)" for the subcommand names, then "?" when the command is
      runnable; nothing at all without subcommands. */
  function GroupText(names: seq<string>, runnable: bool): string {
    if |names| == 0 then "" else " (" + Join(names, " | ") + ")" + (if runnable then "?" else "")
  }

  /** The iterator part of Command.toString: the subcommand names in
      brackets, up to the closing bracket. */
  method AppendSubcommandNames(buffer: string, names: seq<string>) returns (out: string)
    requires |names| > 0
    ensures out == buffer + " (" + Join(names, " | ") + ")"
  {
    out := buffer + " (";
    ghost var head := out;
    out := out + names[0];
    var i := 1;
    while i < |names|
      invariant 1 <= i <= |names|
      invariant out == head + Join(names[..i], " | ")
    {
      JoinSnoc(names[..i], names[i], " | ");
      assert names[..i + 1] == names[..i] + [names[i]];
      out := out + " | " + names[i];
      i := i + 1;
    }
    assert names[..i] == names;
    out := out + ")";
  }

  /** Command.toString: the name, the options, the subcommand group (marked
      with ? when the command is runnable) and the arguments. */
  function CommandText(name: string, options: OrderedMap<Parameter>, subcommandNames: seq<string>,
                       arguments: OrderedMap<Parameter>, runnable: bool): string
  {
    name + ParametersText(Values(options)) + GroupText(subcommandNames, runnable)
      + ParametersText(Values(arguments))
  }
}
