/**
  Reading a rendering back. The renderings of Rendering are meant for people,
  but they lose nothing a descriptor's shape is made of: for a well-formed
  parameter whose type name has no whitespace, splitting its text at spaces
  and parsing the words recovers the required flag, the attribute letters,
  the name, the aliases in order, the type and the default sources. The
  parsers here are specification functions; the Java code has none.
*/
module Reading {
  import opened Wrappers
  import opened Text
  import opened OrderedMaps
  import opened Parameters
  import opened Rendering

  // ----- default value sources -----

  function ParseSource(w: string): Option<DefaultSource> {
    if |w| >= 3 && w[..2] == "#{" && w[|w| - 1] == '}' then Some(SystemProperty(w[2..|w| - 1]))
    else if |w| >= 3 && w[..2] == "${" && w[|w| - 1] == '}' then Some(EnvironmentVariable(w[2..|w| - 1]))
    else if w == "***" then Some(InputPrompt(true))
    else if w == "?" then Some(InputPrompt(false))
    else None
  }

  lemma SourceRoundTrip(s: DefaultSource)
    ensures ParseSource(SourceText(s)) == Some(s)
  {
    match s
    case SystemProperty(key) =>
      var w := "#{" + key + "}";
      assert w[..2] == "#{" && w[2..|w| - 1] == key;
    case EnvironmentVariable(key) =>
      var w := "${" + key + "}";
      assert w[..2] == "${" && w[2..|w| - 1] == key;
      assert w[..2] != "#{" by { assert w[0] == '$'; }
    case InputPrompt(_) =>
  }

  /** Sources separated by "|" words. */
  function ParseSourceWords(ws: seq<string>): Option<seq<DefaultSource>>
    decreases |ws|
  {
    if |ws| == 0 then None
    else match ParseSource(ws[0])
      case None => None
      case Some(s) =>
        if |ws| == 1 then Some([s])
        else if |ws| >= 3 && ws[1] == "|" then
          match ParseSourceWords(ws[2..])
          case None => None
          case Some(rest) => Some([s] + rest)
        else None
  }

  lemma {:induction false} SourceWordsRoundTrip(ss: seq<DefaultSource>)
    requires |ss| > 0
    ensures ParseSourceWords(Barred(SourceTexts(ss))) == Some(ss)
  {
    var ts := SourceTexts(ss);
    SourceRoundTrip(ss[0]);
    if |ss| > 1 {
      assert ts[1..] == SourceTexts(ss[1..]);
      SourceWordsRoundTrip(ss[1..]);
      var ws := Barred(ts);
      assert ws == [ts[0], "|"] + Barred(ts[1..]);
      assert ws[2..] == Barred(ts[1..]);
      assert ss == [ss[0]] + ss[1..];
    } else {
      assert Barred(ts) == [ts[0]];
      assert ss == [ss[0]];
    }
  }

  /** The words of the defaults part: "null" alone, or the barred sources. */
  function DefaultWords(p: Parameter): (ws: seq<string>)
    ensures |ws| > 0
  {
    var sources := DefaultSources(p);
    if |sources| == 0 then ["null"] else Barred(SourceTexts(sources))
  }

  function ParseDefaultWords(ws: seq<string>): Option<seq<DefaultSource>> {
    if ws == ["null"] then Some([]) else ParseSourceWords(ws)
  }

  /** Property and variable names have no whitespace, so no source text has a
      space in it. */
  lemma SourceTextsHaveNoSpace(p: Parameter)
    requires WellFormed(p)
    ensures var ts := SourceTexts(DefaultSources(p));
      forall k :: 0 <= k < |ts| ==> NoSpace(ts[k])
  {
    var ts := SourceTexts(DefaultSources(p));
    forall k | 0 <= k < |ts|
      ensures NoSpace(ts[k])
    {
      match DefaultSources(p)[k]
      case SystemProperty(key) =>
        assert key == p.property.value;
        NonWhitespacedHasNoSpace(key);
        NoSpaceConcat("#{", key);
        NoSpaceConcat("#{" + key, "}");
      case EnvironmentVariable(key) =>
        assert key == p.variable.value;
        NonWhitespacedHasNoSpace(key);
        NoSpaceConcat("${", key);
        NoSpaceConcat("${" + key, "}");
      case InputPrompt(_) =>
    }
  }

  lemma DefaultsWords(p: Parameter)
    requires WellFormed(p)
    ensures Words(DefaultsText(p)) == DefaultWords(p)
  {
    var sources := DefaultSources(p);
    if |sources| == 0 {
      WordsOfSpaceless("null");
    } else {
      SourceTextsHaveNoSpace(p);
      WordsOfBarJoin(SourceTexts(sources));
    }
  }

  /** The defaults part reads back as exactly the declared sources, and it is
      "null" exactly when there are none. */
  lemma DefaultsRoundTrip(p: Parameter)
    requires WellFormed(p)
    ensures ParseDefaultWords(DefaultWords(p)) == Some(DefaultSources(p))
    ensures DefaultsText(p) == "null" <==> DefaultSources(p) == []
  {
    var sources := DefaultSources(p);
    if |sources| > 0 {
      var ts := SourceTexts(sources);
      SourceWordsRoundTrip(sources);
      SourceRoundTrip(sources[0]);
      assert Barred(ts)[0] == ts[0];
      assert ParseSource("null") == None;
      assert Barred(ts) != ["null"];
      DefaultsWords(p);
      assert Words(DefaultsText(p)) != Words("null") by { WordsOfSpaceless("null"); }
    }
  }

  // ----- options and arguments -----

  /** What a parameter's rendering shows. */
  datatype ParameterView = ParameterView(
    required: bool, readable: bool, writable: bool, hidden: bool,
    name: string, aliases: seq<string>, typeName: string, sources: seq<DefaultSource>)

  function ViewOf(p: Parameter): ParameterView {
    ParameterView(p.required, p.getter.Some?, p.setter.Some?, p.hidden, p.name,
                  if p.kind.OptionKind? then p.kind.aliases else [], p.typeName, DefaultSources(p))
  }

  function ParseAttributes(s: string): Option<(bool, bool, bool)> {
    var readable := |s| > 0 && s[0] == 'R';
    var s1 := if readable then s[1..] else s;
    var writable := |s1| > 0 && s1[0] == 'W';
    var s2 := if writable then s1[1..] else s1;
    var hidden := |s2| > 0 && s2[0] == 'H';
    var s3 := if hidden then s2[1..] else s2;
    if s3 == "" then Some((readable, writable, hidden)) else None
  }

  lemma AttributesRoundTrip(p: Parameter)
    ensures ParseAttributes(AttributesText(p)) == Some((p.getter.Some?, p.setter.Some?, p.hidden))
  {
  }

  /** The first word: the opening bracket (which tells whether the parameter
      is required) followed by the attribute letters. */
  function ParseHead(w: string): Option<(bool, (bool, bool, bool))> {
    if |w| > 0 && (w[0] == '<' || w[0] == '[') then
      match ParseAttributes(w[1..])
      case None => None
      case Some(attributes) => Some((w[0] == '<', attributes))
    else None
  }

  lemma HeadRoundTrip(p: Parameter)
    ensures ParseHead(Open(p.required) + AttributesText(p))
            == Some((p.required, (p.getter.Some?, p.setter.Some?, p.hidden)))
  {
    var w := Open(p.required) + AttributesText(p);
    assert w[1..] == AttributesText(p);
    AttributesRoundTrip(p);
  }

  lemma HeadHasNoSpace(p: Parameter)
    ensures NoSpace(Open(p.required) + AttributesText(p))
  {
    NoSpaceConcat(Open(p.required), AttributesText(p));
  }

  /** The words of " | a | b ...": a "|" before each alias. */
  function AliasWords(aliases: seq<string>): seq<string> {
    if |aliases| == 0 then [] else ["|", aliases[0]] + AliasWords(aliases[1..])
  }

  lemma {:induction false} AliasWordsSnoc(aliases: seq<string>, a: string)
    ensures AliasWords(aliases + [a]) == AliasWords(aliases) + ["|", a]
  {
    if |aliases| > 0 {
      assert (aliases + [a])[1..] == aliases[1..] + [a];
      AliasWordsSnoc(aliases[1..], a);
    } else {
      assert AliasWords([a]) == ["|", a] + AliasWords([]);
    }
  }

  /** AliasesText starts with a space, so its first word is empty. */
  lemma {:induction false} AliasesWords(aliases: seq<string>)
    requires forall i :: 0 <= i < |aliases| ==> NoSpace(aliases[i])
    ensures Words(AliasesText(aliases)) == [""] + AliasWords(aliases)
  {
    if |aliases| > 0 {
      var init, last := aliases[..|aliases| - 1], aliases[|aliases| - 1];
      var before := AliasesText(init);
      assert Words(before + " | ") == [""] + AliasWords(init) + ["|", ""] by {
        AliasesWords(init);
        MarkWords(before, [""] + AliasWords(init), "|");
        assert before + " | " == before + " " + "|" + " ";
      }
      WordsConcat(before + " | ", last);
      WordsOfSpaceless(last);
      GlueOntoEmpty([""] + AliasWords(init) + ["|", ""], [last]);
      AliasWordsSnoc(init, last);
      assert init + [last] == aliases;
    }
  }

  /** A separator the renderings use, a mark between spaces, adds the mark
      and an empty word to the words of the text before it. */
  lemma MarkWords(s: string, ws: seq<string>, mark: string)
    requires |ws| > 0 && Words(s) == ws && NoSpace(mark)
    ensures Words(s + " " + mark + " ") == ws + [mark, ""]
  {
    var empty := "";
    assert " " + mark + " " == " " + mark + " " + empty;
    WordsOfSpaced(mark, empty);
    assert s + " " + mark + " " == s + (" " + mark + " ");
    WordsConcat(s, " " + mark + " ");
    GlueAfterSpace(ws, ["", mark, ""]);
  }

  lemma EqualsSeparator()
    ensures Words(" = (") == ["", "=", "("]
  {
    assert " = (" == " " + "=" + " " + "(";
    WordsOfSpaced("=", "(");
  }

  /** Collects "|" alias pairs from the front; returns the aliases and the
      words after them. */
  function ParseAliasWords(ws: seq<string>): (seq<string>, seq<string>)
    decreases |ws|
  {
    if |ws| >= 2 && ws[0] == "|" then
      var r := ParseAliasWords(ws[2..]);
      ([ws[1]] + r.0, r.1)
    else ([], ws)
  }

  lemma {:induction false} AliasesRoundTrip(aliases: seq<string>, rest: seq<string>)
    requires |rest| > 0 && rest[0] != "|"
    ensures ParseAliasWords(AliasWords(aliases) + rest) == (aliases, rest)
  {
    if |aliases| > 0 {
      var ws := AliasWords(aliases) + rest;
      assert ws == ["|", aliases[0]] + (AliasWords(aliases[1..]) + rest);
      assert ws[2..] == AliasWords(aliases[1..]) + rest;
      AliasesRoundTrip(aliases[1..], rest);
      assert [aliases[0]] + aliases[1..] == aliases;
    } else {
      assert AliasWords(aliases) + rest == rest;
    }
  }

  lemma AliasesHaveNoSpace(p: Parameter)
    requires p.kind.OptionKind? && WellFormed(p)
    ensures forall i :: 0 <= i < |p.kind.aliases| ==> NoSpace(p.kind.aliases[i])
  {
    forall i | 0 <= i < |p.kind.aliases|
      ensures NoSpace(p.kind.aliases[i])
    {
      NonWhitespacedHasNoSpace(p.kind.aliases[i]);
    }
  }

  /** The words of an option's rendering, in order. */
  lemma OptionWords(p: Parameter)
    requires p.kind.OptionKind? && WellFormed(p) && NonWhitespaced(p.typeName)
    ensures Words(OptionText(p))
            == [Open(p.required) + AttributesText(p), p.name] + AliasWords(p.kind.aliases)
               + [":", p.typeName + Close(p.required), "="] + Wrap(DefaultWords(p), ")")
  {
    var head := Open(p.required) + AttributesText(p);
    var aliases := p.kind.aliases;
    var front := [head, p.name] + AliasWords(aliases);
    var s3 := head + " " + p.name + AliasesText(aliases);
    assert Words(s3) == front by {
      HeadHasNoSpace(p);
      NonWhitespacedHasNoSpace(p.name);
      NamedWords(head, p.name);
      AliasesHaveNoSpace(p);
      AliasesWords(aliases);
      WordsConcat(head + " " + p.name, AliasesText(aliases));
      GlueAfterSpace([head, p.name], [""] + AliasWords(aliases));
    }
    var middle := front + [":", p.typeName + Close(p.required), "="];
    var s7 := s3 + " : " + p.typeName + Close(p.required) + " = (";
    assert Words(s7) == middle + ["("] by {
      NonWhitespacedHasNoSpace(p.typeName);
      TypedWords(s3, front, p.typeName + Close(p.required));
      AppendAssoc(s3 + " : ", p.typeName, Close(p.required));
    }
    var dw := DefaultWords(p);
    var s8 := s7 + DefaultsText(p);
    assert Words(s8) == middle + ["(" + dw[0]] + dw[1..] by {
      DefaultsWords(p);
      WordsConcat(s7, DefaultsText(p));
    }
    assert Words(s8 + ")") == middle + Wrap(dw, ")") by {
      WordsConcat(s8, ")");
      WordsOfSpaceless(")");
      WrapGlue(middle, dw, ")");
    }
  }

  /** The head word and the name. */
  lemma NamedWords(head: string, name: string)
    requires NoSpace(head) && NoSpace(name)
    ensures Words(head + " " + name) == [head, name]
  {
    WordsAppend(head, name);
    WordsOfSpaceless(head);
    WordsOfSpaceless(name);
  }

  /** " : TYPE = (" after some words; the type word may carry a closing
      bracket. */
  lemma TypedWords(s: string, ws: seq<string>, typeWord: string)
    requires |ws| > 0 && Words(s) == ws && NoSpace(typeWord)
    ensures Words(s + " : " + typeWord + " = (") == ws + [":", typeWord, "=", "("]
  {
    ColonWords(s, ws, typeWord);
    EqualsWords(s + " : " + typeWord, ws + [":", typeWord]);
  }

  lemma ColonWords(s: string, ws: seq<string>, w: string)
    requires |ws| > 0 && Words(s) == ws && NoSpace(w)
    ensures Words(s + " : " + w) == ws + [":", w]
  {
    assert Words(s + " : ") == ws + [":", ""] by {
      MarkWords(s, ws, ":");
      assert s + " : " == s + " " + ":" + " ";
    }
    WordsConcat(s + " : ", w);
    WordsOfSpaceless(w);
    GlueOntoEmpty(ws + [":", ""], [w]);
    assert (ws + [":", ""])[..|ws| + 1] == ws + [":"];
  }

  lemma EqualsWords(s: string, ws: seq<string>)
    requires |ws| > 0 && Words(s) == ws
    ensures Words(s + " = (") == ws + ["=", "("]
  {
    EqualsSeparator();
    WordsConcat(s, " = (");
    GlueAfterSpace(ws, ["", "=", "("]);
  }

  /** Closing a bracketed run of words. */
  lemma WrapGlue(front: seq<string>, ws: seq<string>, tail: string)
    requires |ws| > 0
    ensures Glue(front + ["(" + ws[0]] + ws[1..], [tail]) == front + Wrap(ws, tail)
  {
    var u := front + ["(" + ws[0]] + ws[1..];
    assert Glue(u, [tail]) == u[..|u| - 1] + [u[|u| - 1] + tail];
    if |ws| == 1 {
      assert u[..|u| - 1] == front;
      assert u[|u| - 1] == "(" + ws[0];
    } else {
      assert u[..|u| - 1] == front + ["(" + ws[0]] + ws[1..|ws| - 1];
      assert u[|u| - 1] == ws[|ws| - 1];
    }
  }

  /** Reads an option's rendering. */
  function ParseOption(s: string): Option<ParameterView> {
    ParseOptionWords(Words(s))
  }

  function ParseOptionWords(ws: seq<string>): Option<ParameterView> {
    if |ws| < 2 then None
    else match ParseHead(ws[0])
      case None => None
      case Some(head) =>
        var required, attributes := head.0, head.1;
        var split := ParseAliasWords(ws[2..]);
        var aliases, rest := split.0, split.1;
        if |rest| >= 4 && rest[0] == ":" && |rest[1]| >= 1
           && rest[1][|rest[1]| - 1..] == Close(required) && rest[2] == "="
        then
          match Unwrap(rest[3..], ")")
          case None => None
          case Some(inner) =>
            match ParseDefaultWords(inner)
            case None => None
            case Some(sources) =>
              Some(ParameterView(required, attributes.0, attributes.1, attributes.2, ws[1],
                                 aliases, rest[1][..|rest[1]| - 1], sources))
        else None
  }

  /** An option's rendering shows all of its shape: reading it back gives the
      required flag, the attributes, the name, every alias in order, the type
      and the default sources. */
  lemma OptionRoundTrip(p: Parameter)
    requires p.kind.OptionKind? && WellFormed(p) && NonWhitespaced(p.typeName)
    ensures ParseOption(OptionText(p)) == Some(ViewOf(p))
  {
    OptionWords(p);
    OptionWordsRoundTrip(p);
  }

  lemma OptionWordsRoundTrip(p: Parameter)
    requires p.kind.OptionKind? && WellFormed(p)
    ensures ParseOptionWords([Open(p.required) + AttributesText(p), p.name] + AliasWords(p.kind.aliases)
                             + [":", p.typeName + Close(p.required), "="] + Wrap(DefaultWords(p), ")"))
            == Some(ViewOf(p))
  {
    var typeWord := p.typeName + Close(p.required);
    assert typeWord[..|typeWord| - 1] == p.typeName;
    assert typeWord[|typeWord| - 1..] == Close(p.required);
    HeadRoundTrip(p);
    DefaultsRoundTrip(p);
    ParseOptionWordsOf(Open(p.required) + AttributesText(p), p.required,
                       (p.getter.Some?, p.setter.Some?, p.hidden), p.name, p.kind.aliases,
                       typeWord, DefaultWords(p), DefaultSources(p));
  }

  lemma ParseOptionWordsOf(head: string, required: bool, attributes: (bool, bool, bool), name: string,
                           aliases: seq<string>, typeWord: string, dw: seq<string>, sources: seq<DefaultSource>)
    requires ParseHead(head) == Some((required, attributes))
    requires |typeWord| >= 1 && typeWord[|typeWord| - 1..] == Close(required)
    requires |dw| > 0 && ParseDefaultWords(dw) == Some(sources)
    ensures ParseOptionWords([head, name] + AliasWords(aliases) + [":", typeWord, "="] + Wrap(dw, ")"))
            == Some(ParameterView(required, attributes.0, attributes.1, attributes.2, name, aliases,
                                  typeWord[..|typeWord| - 1], sources))
  {
    var wrapped := Wrap(dw, ")");
    var rest := [":", typeWord, "="] + wrapped;
    var ws := [head, name] + AliasWords(aliases) + [":", typeWord, "="] + wrapped;
    assert ws == [head, name] + (AliasWords(aliases) + rest);
    assert ParseAliasWords(ws[2..]) == (aliases, rest) by {
      assert ws[2..] == AliasWords(aliases) + rest;
      AliasesRoundTrip(aliases, rest);
    }
    assert Unwrap(rest[3..], ")") == Some(dw) by {
      assert rest[3..] == wrapped;
      UnwrapWrap(dw, ")");
    }
    assert |rest| >= 4 && rest[0] == ":" && rest[1] == typeWord && rest[2] == "=";
  }

  /** The words of an argument's rendering, in order. */
  lemma ArgumentWords(p: Parameter)
    requires WellFormed(p) && NonWhitespaced(p.typeName)
    ensures Words(ArgumentText(p))
            == [Open(p.required) + AttributesText(p), p.name, ":", p.typeName, "="]
               + Wrap(DefaultWords(p), ")" + Close(p.required))
  {
    var head := Open(p.required) + AttributesText(p);
    var s2 := head + " " + p.name;
    assert Words(s2) == [head, p.name] by {
      HeadHasNoSpace(p);
      NonWhitespacedHasNoSpace(p.name);
      NamedWords(head, p.name);
    }
    var middle := [head, p.name, ":", p.typeName, "="];
    var s5 := s2 + " : " + p.typeName + " = (";
    assert Words(s5) == middle + ["("] by {
      NonWhitespacedHasNoSpace(p.typeName);
      TypedWords(s2, [head, p.name], p.typeName);
    }
    var dw := DefaultWords(p);
    var s6 := s5 + DefaultsText(p);
    assert Words(s6) == middle + ["(" + dw[0]] + dw[1..] by {
      DefaultsWords(p);
      WordsConcat(s5, DefaultsText(p));
    }
    var tail := ")" + Close(p.required);
    assert ArgumentText(p) == s6 + tail by {
      AppendAssoc(s6, ")", Close(p.required));
    }
    assert Words(s6 + tail) == middle + Wrap(dw, tail) by {
      NoSpaceConcat(")", Close(p.required));
      WordsConcat(s6, tail);
      WordsOfSpaceless(tail);
      WrapGlue(middle, dw, tail);
    }
  }

  /** Reads an argument's rendering. */
  function ParseArgument(s: string): Option<ParameterView> {
    ParseArgumentWords(Words(s))
  }

  function ParseArgumentWords(ws: seq<string>): Option<ParameterView> {
    if |ws| >= 6 && ws[2] == ":" && ws[4] == "=" then
      match ParseHead(ws[0])
      case None => None
      case Some(head) =>
        var required, attributes := head.0, head.1;
        match Unwrap(ws[5..], ")" + Close(required))
        case None => None
        case Some(inner) =>
          match ParseDefaultWords(inner)
          case None => None
          case Some(sources) =>
            Some(ParameterView(required, attributes.0, attributes.1, attributes.2, ws[1], [], ws[3], sources))
    else None
  }

  /** An argument's rendering shows all of its shape, its defaults inside the
      brackets. */
  lemma ArgumentRoundTrip(p: Parameter)
    requires p.kind.ArgumentKind? && WellFormed(p) && NonWhitespaced(p.typeName)
    ensures ParseArgument(ArgumentText(p)) == Some(ViewOf(p))
  {
    ArgumentWords(p);
    ArgumentWordsRoundTrip(p);
  }

  lemma ArgumentWordsRoundTrip(p: Parameter)
    requires p.kind.ArgumentKind? && WellFormed(p)
    ensures ParseArgumentWords([Open(p.required) + AttributesText(p), p.name, ":", p.typeName, "="]
                               + Wrap(DefaultWords(p), ")" + Close(p.required)))
            == Some(ViewOf(p))
  {
    var ws := [Open(p.required) + AttributesText(p), p.name, ":", p.typeName, "="]
              + Wrap(DefaultWords(p), ")" + Close(p.required));
    assert ws[5..] == Wrap(DefaultWords(p), ")" + Close(p.required));
    HeadRoundTrip(p);
    UnwrapWrap(DefaultWords(p), ")" + Close(p.required));
    DefaultsRoundTrip(p);
  }

  // ----- commands -----

  /** The renderings of the parameters, in order. */
  function ParameterTexts(ps: seq<Parameter>): (ts: seq<string>)
    ensures |ts| == |ps| && forall i :: 0 <= i < |ps| ==> ts[i] == ParameterText(ps[i])
  {
    seq(|ps|, i requires 0 <= i < |ps| => ParameterText(ps[i]))
  }

  lemma {:induction false} ParametersTextSpaced(ps: seq<Parameter>)
    ensures ParametersText(ps) == Spaced(ParameterTexts(ps))
  {
    if |ps| > 0 {
      ParametersTextSpaced(ps[..|ps| - 1]);
      assert ParameterTexts(ps)[..|ps| - 1] == ParameterTexts(ps[..|ps| - 1]);
    }
  }

  /** Each parameter's rendering is preceded by a space, so the parameters
      start new words and never merge into what comes before. */
  lemma WordsWithParameters(x: string, ps: seq<Parameter>)
    ensures Words(x + ParametersText(ps)) == Words(x) + WordsOfAll(ParameterTexts(ps))
  {
    ParametersTextSpaced(ps);
    WordsAfterSpaced(x, ParameterTexts(ps));
  }

  /** The words of the subcommand group: the names between "|" words, in
      brackets, the last one carrying the runnable mark. */
  function GroupWords(names: seq<string>, runnable: bool): seq<string> {
    if |names| == 0 then [] else Wrap(Barred(names), ")" + (if runnable then "?" else ""))
  }

  lemma WordsWithGroup(x: string, names: seq<string>, runnable: bool)
    requires forall k :: 0 <= k < |names| ==> NoSpace(names[k])
    ensures Words(x + GroupText(names, runnable)) == Words(x) + GroupWords(names, runnable)
  {
    if |names| > 0 {
      var joined := Join(names, " | ");
      var tail := ")" + (if runnable then "?" else "");
      var bracketed := "(" + joined + tail;
      assert x + GroupText(names, runnable) == x + " " + bracketed by {
        assert GroupText(names, runnable) == " (" + joined + tail by {
          AppendAssoc(" (" + joined, ")", if runnable then "?" else "");
        }
        assert " (" + joined + tail == " " + bracketed;
      }
      WordsAppend(x, bracketed);
      WordsWrapped(joined, tail);
      WordsOfBarJoin(names);
    } else {
      assert x + GroupText(names, runnable) == x;
    }
  }

  /** The words of a command's rendering: its name, the words of each option,
      the subcommand group and the words of each argument. */
  lemma CommandWords(name: string, options: OrderedMap<Parameter>, names: seq<string>,
                     arguments: OrderedMap<Parameter>, runnable: bool)
    requires NoSpace(name)
    requires forall k :: 0 <= k < |names| ==> NoSpace(names[k])
    ensures Words(CommandText(name, options, names, arguments, runnable))
            == [name] + WordsOfAll(ParameterTexts(Values(options))) + GroupWords(names, runnable)
               + WordsOfAll(ParameterTexts(Values(arguments)))
  {
    var withOptions := name + ParametersText(Values(options));
    WordsOfSpaceless(name);
    WordsWithParameters(name, Values(options));
    WordsWithGroup(withOptions, names, runnable);
    WordsWithParameters(withOptions + GroupText(names, runnable), Values(arguments));
  }

  /** The runnable mark shows exactly when there is a subcommand group to
      carry it. */
  lemma RunnableMarkShown(name: string, options: OrderedMap<Parameter>, names: seq<string>,
                          arguments: OrderedMap<Parameter>)
    ensures CommandText(name, options, names, arguments, true) == CommandText(name, options, names, arguments, false)
            <==> |names| == 0
  {
    if |names| > 0 {
      assert |GroupText(names, true)| == |GroupText(names, false)| + 1;
      assert |CommandText(name, options, names, arguments, true)|
             == |CommandText(name, options, names, arguments, false)| + 1;
    }
  }
}
