/**
  The command descriptors and their builders. A `Command` is an object: its
  builder fills the maps of a prototype command in place, and `IsRunnable`
  caches its answer in the command. Building a subcommand freezes the
  prototype into a new command and registers it with the parent builder's
  prototype; building a parameter registers the parameter builder's
  prototype with the builder that created it. Every exception the Java code
  throws (an IllegalArgumentException of a name check, a NullPointerException of a
  missing provider, the IllegalStateException of a duplicate name) is a
  `Failure` here, and a failed call changes nothing.
*/
module Commands {
  import opened Wrappers
  import opened Text
  import opened OrderedMaps
  import opened Errors
  import opened Parameters
  import opened Rendering

  /** A provider of command handlers. What a handler is (Runnable, Callable
      or neither) is known only by calling the provider, so the caller of
      IsRunnable supplies that answer. */
  datatype Supplier = Supplier(id: nat)

  /** A parameter map as the builders keep it: distinct names, each key the
      name of its parameter, every parameter well-formed and of the map's
      kind. */
  predicate Registered(m: OrderedMap<Parameter>, options: bool) {
    && DistinctKeys(m)
    && forall i :: 0 <= i < |m| ==>
         m[i].0 == m[i].1.name && WellFormed(m[i].1) && m[i].1.kind.OptionKind? == options
  }

  /** Registering a parameter under its own name keeps a map registered, and
      a name already present keeps its first parameter. */
  lemma RegisterIfAbsent(m: OrderedMap<Parameter>, p: Parameter, options: bool)
    requires Registered(m, options) && WellFormed(p) && p.kind.OptionKind? == options
    ensures Registered(PutIfAbsent(m, p.name, p).0, options)
    ensures HasKey(m, p.name) ==> PutIfAbsent(m, p.name, p).0 == m
  {
  }

  /** The root builder's put: the map stays registered, a new name goes last,
      and a known name keeps its place and takes the new parameter. */
  lemma RegisterReplacing(m: OrderedMap<Parameter>, p: Parameter)
    requires Registered(m, true) && WellFormed(p) && p.kind.OptionKind?
    ensures Registered(Put(m, p.name, p), true)
    ensures Keys(Put(m, p.name, p)) == if HasKey(m, p.name) then Keys(m) else Keys(m) + [p.name]
    ensures Get(Put(m, p.name, p), p.name) == Some(p)
  {
    PutSemantics(m, p.name, p);
    var r := Put(m, p.name, p);
    var i := IndexOf(m, p.name);
    forall j | 0 <= j < |r|
      ensures r[j].0 == r[j].1.name && WellFormed(r[j].1) && r[j].1.kind.OptionKind?
    {
      if j != i {
        assert r[j] == m[j];
      }
    }
  }

  /** Options are registered by name only: an option may take a name that is
      an alias of an option already registered. */
  lemma AliasNotReserved()
    ensures var a := NewOption("T", "a", ["b"]);
            var b := NewOption("T", "b", []);
            && a.Success? && b.Success? && a.value.kind.aliases == ["b"]
            && Registered([("a", a.value)], true)
            && PutIfAbsent([("a", a.value)], "b", b.value).1.None?
  {
  }

  /** The answer of isRunnable: the cached answer if there is one, false
      without a provider, and otherwise what the handler just supplied is. */
  function RunnableAnswer(cache: Option<bool>, provider: Option<Supplier>, handlerIsRunnable: bool): bool {
    if cache.Some? then cache.value else provider.Some? && handlerIsRunnable
  }

  /** The cache after isRunnable: filled exactly when there was a provider to
      ask. */
  function CacheAfter(cache: Option<bool>, provider: Option<Supplier>, handlerIsRunnable: bool): Option<bool> {
    if cache.Some? then cache else if provider.Some? then Some(handlerIsRunnable) else None
  }

  /** Once a provider has been asked, the command answers the same whatever
      later handlers are; without a provider the answer is false and nothing
      is remembered. */
  lemma RunnableIsCached(cache: Option<bool>, provider: Option<Supplier>, first: bool, later: bool)
    ensures var c := CacheAfter(cache, provider, first);
      && (provider.Some? ==> c.Some? && RunnableAnswer(c, provider, later) == RunnableAnswer(cache, provider, first))
      && (provider.None? ==> c == cache && (cache.None? ==> !RunnableAnswer(cache, provider, first)))
  {
  }

  /** The descriptor of a command. */
  class Command {
    const name: string
    var description: Option<string>
    var options: OrderedMap<Parameter>
    var arguments: OrderedMap<Parameter>
    var subcommands: OrderedMap<Command>
    var provider: Option<Supplier>
    var runnable: Option<bool>
    /** How many handlers the provider has been asked for. */
    ghost var handlerRequests: nat
    /** Whether this command was frozen from a builder's prototype. Its maps
        are then unmodifiable in the Java code: no builder holds it. */
    ghost const frozen: bool

    ghost predicate Valid()
      reads this
    {
      && NonWhitespaced(name)
      && (description.Some? ==> NonBlank(description.value))
      && Registered(options, true)
      && Registered(arguments, false)
      && DistinctKeys(subcommands)
      && (forall i :: 0 <= i < |subcommands| ==> subcommands[i].0 == subcommands[i].1.name)
      && (forall i :: 0 <= i < |subcommands| ==> subcommands[i].1.frozen)
      && (runnable.Some? ==> provider.Some?)
      && handlerRequests == (if runnable.Some? then 1 else 0)
    }

    constructor Init(name: string, description: Option<string>, options: OrderedMap<Parameter>,
                     arguments: OrderedMap<Parameter>, subcommands: OrderedMap<Command>,
                     provider: Option<Supplier>, ghost frozen: bool)
      ensures this.name == name && this.description == description
      ensures this.options == options && this.arguments == arguments
      ensures this.subcommands == subcommands && this.provider == provider
      ensures runnable.None? && handlerRequests == 0 && this.frozen == frozen
    {
      this.name := name;
      this.description := description;
      this.options := options;
      this.arguments := arguments;
      this.subcommands := subcommands;
      this.provider := provider;
      this.frozen := frozen;
      runnable := None;
      handlerRequests := 0;
    }

    /** Command(String): an empty command with a checked name. */
    static method Named(name: string) returns (r: Result<Command, Error>)
      ensures r.Success? <==> NonWhitespaced(name)
      ensures r.Failure? ==> r.error == IllegalArgument(NonWhitespacedCheck, name)
      ensures r.Success? ==> && fresh(r.value) && r.value.Valid() && r.value.name == name
                             && r.value.description.None? && r.value.provider.None?
                             && r.value.options == [] && r.value.arguments == [] && r.value.subcommands == []
                             && !r.value.frozen
    {
      if !NonWhitespaced(name) {
        return Failure(IllegalArgument(NonWhitespacedCheck, name));
      }
      var c := new Command.Init(name, None, [], [], [], None, false);
      return Success(c);
    }

    /** Command(Builder): the provider is checked first, then every property
        of the prototype is copied; the new command has asked no provider
        yet. */
    static method FromPrototype(prototype: Command) returns (r: Result<Command, Error>)
      requires prototype.Valid()
      ensures prototype.provider.None? ==> r == Failure(NullPointer)
      ensures prototype.provider.Some? ==> r.Success?
      ensures r.Success? ==> && fresh(r.value) && r.value.Valid()
                             && r.value.name == prototype.name && r.value.description == prototype.description
                             && r.value.options == prototype.options && r.value.arguments == prototype.arguments
                             && r.value.subcommands == prototype.subcommands
                             && r.value.provider == prototype.provider && r.value.runnable.None?
                             && r.value.frozen
    {
      if prototype.provider.None? {
        return Failure(NullPointer);
      }
      var c := new Command.Init(prototype.name, prototype.description, prototype.options,
                                prototype.arguments, prototype.subcommands, prototype.provider, true);
      return Success(c);
    }

    /** isRunnable: the provider is asked for a handler at most once, and only
        when there is a provider; `handlerIsRunnable` is whether the handler it
        supplies on this call implements Runnable or Callable. */
    method IsRunnable(handlerIsRunnable: bool) returns (r: bool)
      requires Valid()
      modifies this`runnable, this`handlerRequests
      ensures r == RunnableAnswer(old(runnable), provider, handlerIsRunnable)
      ensures runnable == CacheAfter(old(runnable), provider, handlerIsRunnable)
      ensures handlerRequests == old(handlerRequests) + (if old(runnable).None? && provider.Some? then 1 else 0)
      ensures Valid()
    {
      if runnable.None? {
        if provider.Some? {
          handlerRequests := handlerRequests + 1;
          runnable := Some(handlerIsRunnable);
        } else {
          return false;
        }
      }
      return runnable.value;
    }

    /** toString(StringBuilder): the name, the options, the subcommand names
        (asking isRunnable only when there are subcommands) and the
        arguments. */
    method ToString(buffer: string, handlerIsRunnable: bool) returns (out: string)
      requires Valid()
      modifies this`runnable, this`handlerRequests
      ensures out == buffer + CommandText(name, options, Keys(subcommands), arguments,
                                          RunnableAnswer(old(runnable), provider, handlerIsRunnable))
      ensures |subcommands| > 0 ==> && runnable == CacheAfter(old(runnable), provider, handlerIsRunnable)
                                    && handlerRequests == old(handlerRequests)
                                       + (if old(runnable).None? && provider.Some? then 1 else 0)
      ensures |subcommands| == 0 ==> runnable == old(runnable) && handlerRequests == old(handlerRequests)
      ensures Valid()
    {
      ghost var answer := RunnableAnswer(runnable, provider, handlerIsRunnable);
      var names := Keys(subcommands);
      out := buffer + name;
      out := AppendParameters(out, Values(options));
      ghost var text := name + ParametersText(Values(options));
      AppendAssoc(buffer, name, ParametersText(Values(options)));
      if |subcommands| > 0 {
        out := AppendSubcommandNames(out, names);
        var isRunnable := IsRunnable(handlerIsRunnable);
        if isRunnable {
          out := out + "?";
        }
        ghost var joined := Join(names, " | ");
        ghost var mark := if answer then "?" else "";
        assert out == buffer + text + " (" + joined + ")" + mark;
        assert GroupText(names, answer) == " (" + joined + ")" + mark;
        AppendAssoc(buffer + text, " (" + joined + ")", mark);
        AppendAssoc(buffer + text, " (" + joined, ")");
        AppendAssoc(buffer + text, " (", joined);
        AppendAssoc(buffer, text, GroupText(names, answer));
      } else {
        assert GroupText(names, answer) == "";
        assert out == buffer + (text + GroupText(names, answer));
      }
      text := text + GroupText(names, answer);
      AppendAssoc(buffer, text, ParametersText(Values(arguments)));
      out := AppendParameters(out, Values(arguments));
    }
  }

  /** Command.Builder: the prototype it fills and, for a subcommand builder,
      the builder it returns to. The prototype is never a frozen command, so
      no builder can change a command that has been built. */
  class CommandBuilder {
    const prototype: Command
    const parent: CommandBuilder?

    ghost predicate Valid()
      reads this, prototype
    {
      prototype.Valid() && !prototype.frozen
    }

    /** Builder(String), once the name has passed its check: the builder
        creates its own prototype command. */
    constructor (name: string, parent: CommandBuilder?)
      requires NonWhitespaced(name)
      ensures fresh(prototype) && Valid() && this.parent == parent && prototype.name == name
      ensures && prototype.description.None? && prototype.provider.None?
              && prototype.options == [] && prototype.arguments == [] && prototype.subcommands == []
    {
      var c := Command.Named(name);
      prototype := c.value;
      this.parent := parent;
    }

    /** Builder(String): a builder around a new prototype command. */
    static method New(name: string, parent: CommandBuilder?) returns (r: Result<CommandBuilder, Error>)
      ensures r.Success? <==> NonWhitespaced(name)
      ensures r.Failure? ==> r.error == IllegalArgument(NonWhitespacedCheck, name)
      ensures r.Success? ==> && fresh(r.value) && fresh(r.value.prototype) && r.value.Valid()
                             && r.value.parent == parent && r.value.prototype.name == name
                             && r.value.prototype.description.None? && r.value.prototype.provider.None?
                             && r.value.prototype.options == [] && r.value.prototype.arguments == []
                             && r.value.prototype.subcommands == []
    {
      if !NonWhitespaced(name) {
        return Failure(IllegalArgument(NonWhitespacedCheck, name));
      }
      var b := new CommandBuilder(name, parent);
      return Success(b);
    }

    /** description(text): a text that is not blank becomes the description. */
    method Description(text: string) returns (r: Result<CommandBuilder, Error>)
      requires Valid()
      modifies prototype`description
      ensures NonBlank(text) ==> r == Success(this) && prototype.description == Some(text)
      ensures !NonBlank(text) ==> r == Failure(IllegalArgument(NonBlankCheck, text))
                                  && prototype.description == old(prototype.description)
      ensures Valid()
    {
      if !NonBlank(text) {
        return Failure(IllegalArgument(NonBlankCheck, text));
      }
      prototype.description := Some(text);
      return Success(this);
    }

    /** option(type, name, aliases): a builder for a new option of this
        command; nothing is registered until it is built. */
    method Option(typeName: string, name: string, aliases: seq<string>) returns (r: Result<ParameterBuilder, Error>)
      ensures r.Success? <==> NewOption(typeName, name, aliases).Success?
      ensures r.Failure? ==> r.error == NewOption(typeName, name, aliases).error
      ensures r.Success? ==> fresh(r.value) && r.value.prototype == NewOption(typeName, name, aliases).value
    {
      r := ParameterBuilder.ForOption(typeName, name, aliases);
    }

    /** The build() of an option builder made by `Option`: the option is
        registered under its name unless the name is taken. */
    method BuildOption(b: ParameterBuilder) returns (r: Result<CommandBuilder, Error>)
      requires Valid() && b.Valid() && b.prototype.kind.OptionKind?
      modifies prototype`options
      ensures HasKey(old(prototype.options), b.prototype.name) ==>
                && r == Failure(AlreadyDefined(prototype.name, OptionEntry, b.prototype.name))
                && prototype.options == old(prototype.options)
      ensures !HasKey(old(prototype.options), b.prototype.name) ==>
                r == Success(this) && prototype.options == old(prototype.options) + [(b.prototype.name, b.prototype)]
      ensures Valid()
    {
      var option := b.prototype;
      var put := PutIfAbsent(prototype.options, option.name, option);
      RegisterIfAbsent(prototype.options, option, true);
      if put.1.Some? {
        return Failure(AlreadyDefined(prototype.name, OptionEntry, option.name));
      }
      prototype.options := put.0;
      return Success(this);
    }

    /** argument(type, name): a builder for a new argument of this command. */
    method Argument(typeName: string, name: string) returns (r: Result<ParameterBuilder, Error>)
      ensures r.Success? <==> NonWhitespaced(name)
      ensures r.Failure? ==> r.error == IllegalArgument(NonWhitespacedCheck, name)
      ensures r.Success? ==> fresh(r.value) && r.value.prototype == NewArgument(typeName, name).value
    {
      r := ParameterBuilder.ForArgument(typeName, name);
    }

    /** The build() of an argument builder made by `Argument`. */
    method BuildArgument(b: ParameterBuilder) returns (r: Result<CommandBuilder, Error>)
      requires Valid() && b.Valid() && b.prototype.kind.ArgumentKind?
      modifies prototype`arguments
      ensures HasKey(old(prototype.arguments), b.prototype.name) ==>
                && r == Failure(AlreadyDefined(prototype.name, ArgumentEntry, b.prototype.name))
                && prototype.arguments == old(prototype.arguments)
      ensures !HasKey(old(prototype.arguments), b.prototype.name) ==>
                r == Success(this) && prototype.arguments == old(prototype.arguments) + [(b.prototype.name, b.prototype)]
      ensures Valid()
    {
      var argument := b.prototype;
      var put := PutIfAbsent(prototype.arguments, argument.name, argument);
      RegisterIfAbsent(prototype.arguments, argument, false);
      if put.1.Some? {
        return Failure(AlreadyDefined(prototype.name, ArgumentEntry, argument.name));
      }
      prototype.arguments := put.0;
      return Success(this);
    }

    /** subcommand(name): a builder for a subcommand that returns to this
        builder when built. */
    method Subcommand(name: string) returns (r: Result<CommandBuilder, Error>)
      ensures r.Success? <==> NonWhitespaced(name)
      ensures r.Failure? ==> r.error == IllegalArgument(NonWhitespacedCheck, name)
      ensures r.Success? ==> && fresh(r.value) && fresh(r.value.prototype) && r.value.Valid()
                             && r.value.parent == this && r.value.prototype.name == name
                             && r.value.prototype.description.None?
                             && r.value.prototype.options == [] && r.value.prototype.arguments == []
                             && r.value.prototype.subcommands == [] && r.value.prototype.provider.None?
    {
      r := New(name, this);
    }

    /** provider(factory). */
    method Provider(factory: Supplier) returns (r: CommandBuilder)
      requires Valid()
      modifies prototype`provider
      ensures r == this && prototype.provider == Some(factory)
      ensures Valid()
    {
      prototype.provider := Some(factory);
      return this;
    }

    /** The build() of a subcommand builder: the prototype is frozen into a new
        command (which fails first on a missing provider) and registered in
        the parent's subcommands unless the name is taken. */
    method Build() returns (r: Result<CommandBuilder, Error>)
      requires Valid() && parent != null && parent.Valid()
      modifies parent.prototype`subcommands
      ensures old(prototype.provider).None? ==>
                r == Failure(NullPointer) && parent.prototype.subcommands == old(parent.prototype.subcommands)
      ensures old(prototype.provider).Some? && HasKey(old(parent.prototype.subcommands), prototype.name) ==>
                && r == Failure(AlreadyDefined(parent.prototype.name, SubcommandEntry, prototype.name))
                && parent.prototype.subcommands == old(parent.prototype.subcommands)
      ensures old(prototype.provider).Some? && !HasKey(old(parent.prototype.subcommands), prototype.name) ==>
                && r == Success(parent)
                && |parent.prototype.subcommands| == |old(parent.prototype.subcommands)| + 1
                && parent.prototype.subcommands[..|old(parent.prototype.subcommands)|]
                   == old(parent.prototype.subcommands)
                && var built := parent.prototype.subcommands[|old(parent.prototype.subcommands)|];
                && built.0 == prototype.name && fresh(built.1) && built.1.Valid()
                && built.1.name == prototype.name && built.1.description == old(prototype.description)
                && built.1.options == old(prototype.options) && built.1.arguments == old(prototype.arguments)
                && built.1.subcommands == old(prototype.subcommands)
                && built.1.provider == old(prototype.provider) && built.1.runnable.None?
                && built.1.frozen
      ensures parent.Valid()
    {
      var subcommand := Command.FromPrototype(prototype);
      if subcommand.Failure? {
        return Failure(subcommand.error);
      }
      var command := subcommand.value;
      var put := PutIfAbsent(parent.prototype.subcommands, command.name, command);
      if put.1.Some? {
        return Failure(AlreadyDefined(parent.prototype.name, SubcommandEntry, command.name));
      }
      parent.prototype.subcommands := put.0;
      return Success(parent);
    }

    /** toString(): the prototype's rendering. */
    method ToString(handlerIsRunnable: bool) returns (s: string)
      requires Valid()
      modifies prototype`runnable, prototype`handlerRequests
      ensures s == CommandText(prototype.name, prototype.options, Keys(prototype.subcommands),
                               prototype.arguments, RunnableAnswer(old(prototype.runnable), prototype.provider, handlerIsRunnable))
      ensures |prototype.subcommands| > 0 ==>
                && prototype.runnable == CacheAfter(old(prototype.runnable), prototype.provider, handlerIsRunnable)
                && prototype.handlerRequests == old(prototype.handlerRequests)
                   + (if old(prototype.runnable).None? && prototype.provider.Some? then 1 else 0)
      ensures |prototype.subcommands| == 0 ==>
                prototype.runnable == old(prototype.runnable) && prototype.handlerRequests == old(prototype.handlerRequests)
      ensures Valid()
    {
      s := prototype.ToString("", handlerIsRunnable);
    }
  }

  /** Parameter.Builder, with Option.Builder and Argument.Builder: a prototype
      parameter that its setters change in place. */
  class ParameterBuilder {
    var prototype: Parameter

    ghost predicate Valid()
      reads this
    {
      WellFormed(prototype)
    }

    constructor Init(prototype: Parameter)
      ensures this.prototype == prototype
    {
      this.prototype := prototype;
    }

    /** Option.Builder(type, name, aliases). */
    static method ForOption(typeName: string, name: string, aliases: seq<string>) returns (r: Result<ParameterBuilder, Error>)
      ensures r.Success? <==> NewOption(typeName, name, aliases).Success?
      ensures r.Failure? ==> r.error == NewOption(typeName, name, aliases).error
      ensures r.Success? ==> fresh(r.value) && r.value.Valid()
                             && r.value.prototype == NewOption(typeName, name, aliases).value
    {
      var p := NewOption(typeName, name, aliases);
      if p.Failure? {
        return Failure(p.error);
      }
      var b := new ParameterBuilder.Init(p.value);
      return Success(b);
    }

    /** Argument.Builder(type, name). */
    static method ForArgument(typeName: string, name: string) returns (r: Result<ParameterBuilder, Error>)
      ensures r.Success? <==> NonWhitespaced(name)
      ensures r.Failure? ==> r.error == IllegalArgument(NonWhitespacedCheck, name)
      ensures r.Success? ==> fresh(r.value) && r.value.Valid()
                             && r.value.prototype == NewArgument(typeName, name).value
    {
      var p := NewArgument(typeName, name);
      if p.Failure? {
        return Failure(p.error);
      }
      var b := new ParameterBuilder.Init(p.value);
      return Success(b);
    }

    method Description(text: string) returns (r: Result<ParameterBuilder, Error>)
      requires Valid()
      modifies this
      ensures NonBlank(text) ==> r == Success(this) && prototype == old(prototype).(description := Some(text))
      ensures !NonBlank(text) ==> r == Failure(IllegalArgument(NonBlankCheck, text)) && prototype == old(prototype)
      ensures Valid()
    {
      if !NonBlank(text) {
        return Failure(IllegalArgument(NonBlankCheck, text));
      }
      prototype := prototype.(description := Some(text));
      return Success(this);
    }

    method Property(name: string) returns (r: Result<ParameterBuilder, Error>)
      requires Valid()
      modifies this
      ensures NonWhitespaced(name) ==> r == Success(this) && prototype == old(prototype).(property := Some(name))
      ensures !NonWhitespaced(name) ==> r == Failure(IllegalArgument(NonWhitespacedCheck, name)) && prototype == old(prototype)
      ensures Valid()
    {
      if !NonWhitespaced(name) {
        return Failure(IllegalArgument(NonWhitespacedCheck, name));
      }
      prototype := prototype.(property := Some(name));
      return Success(this);
    }

    method Variable(name: string) returns (r: Result<ParameterBuilder, Error>)
      requires Valid()
      modifies this
      ensures NonWhitespaced(name) ==> r == Success(this) && prototype == old(prototype).(variable := Some(name))
      ensures !NonWhitespaced(name) ==> r == Failure(IllegalArgument(NonWhitespacedCheck, name)) && prototype == old(prototype)
      ensures Valid()
    {
      if !NonWhitespaced(name) {
        return Failure(IllegalArgument(NonWhitespacedCheck, name));
      }
      prototype := prototype.(variable := Some(name));
      return Success(this);
    }

    method Prompt(message: string) returns (r: Result<ParameterBuilder, Error>)
      requires Valid()
      modifies this
      ensures NonBlank(message) ==> r == Success(this) && prototype == old(prototype).(prompt := Some(message))
      ensures !NonBlank(message) ==> r == Failure(IllegalArgument(NonBlankCheck, message)) && prototype == old(prototype)
      ensures Valid()
    {
      if !NonBlank(message) {
        return Failure(IllegalArgument(NonBlankCheck, message));
      }
      prototype := prototype.(prompt := Some(message));
      return Success(this);
    }

    method WithConverter(converter: Converter) returns (r: ParameterBuilder)
      requires Valid()
      modifies this
      ensures r == this && prototype == old(prototype).(converter := converter) && Valid()
    {
      prototype := prototype.(converter := converter);
      return this;
    }

    method WithConstraint(constraint: Constraint) returns (r: ParameterBuilder)
      requires Valid()
      modifies this
      ensures r == this && prototype == old(prototype).(constraint := constraint) && Valid()
    {
      prototype := prototype.(constraint := constraint);
      return this;
    }

    method WithGetter(getter: Getter) returns (r: ParameterBuilder)
      requires Valid()
      modifies this
      ensures r == this && prototype == old(prototype).(getter := Some(getter)) && Valid()
    {
      prototype := prototype.(getter := Some(getter));
      return this;
    }

    method WithSetter(setter: Setter) returns (r: ParameterBuilder)
      requires Valid()
      modifies this
      ensures r == this && prototype == old(prototype).(setter := Some(setter)) && Valid()
    {
      prototype := prototype.(setter := Some(setter));
      return this;
    }

    method Password() returns (r: ParameterBuilder)
      requires Valid()
      modifies this
      ensures r == this && prototype == old(prototype).(password := true) && Valid()
    {
      prototype := prototype.(password := true);
      return this;
    }

    method Required() returns (r: ParameterBuilder)
      requires Valid()
      modifies this
      ensures r == this && prototype == old(prototype).(required := true) && Valid()
    {
      prototype := prototype.(required := true);
      return this;
    }

    method Optional() returns (r: ParameterBuilder)
      requires Valid()
      modifies this
      ensures r == this && prototype == old(prototype).(required := false) && Valid()
    {
      prototype := prototype.(required := false);
      return this;
    }

    method Hidden() returns (r: ParameterBuilder)
      requires Valid()
      modifies this
      ensures r == this && prototype == old(prototype).(hidden := true) && Valid()
    {
      prototype := prototype.(hidden := true);
      return this;
    }

    /** toString(): the prototype's rendering. */
    method ToString() returns (s: string)
      ensures s == ParameterText(prototype)
    {
      s := AppendParameter("", prototype);
    }
  }

  /** CommandLine.Builder: the root's options, kept by `put`. */
  class CommandLineBuilder {
    var options: OrderedMap<Parameter>

    ghost predicate Valid()
      reads this
    {
      Registered(options, true)
    }

    /** CommandLine(): no options yet. */
    constructor ()
      ensures options == [] && Valid()
    {
      options := [];
    }

    /** option(type, name, aliases): a builder for a new root option. */
    method Option(typeName: string, name: string, aliases: seq<string>) returns (r: Result<ParameterBuilder, Error>)
      ensures r.Success? <==> NewOption(typeName, name, aliases).Success?
      ensures r.Failure? ==> r.error == NewOption(typeName, name, aliases).error
      ensures r.Success? ==> fresh(r.value) && r.value.prototype == NewOption(typeName, name, aliases).value
    {
      r := ParameterBuilder.ForOption(typeName, name, aliases);
    }

    /** The build() of a root option builder: the option is put under its
        name, replacing an option of the same name in place. */
    method BuildOption(b: ParameterBuilder) returns (r: CommandLineBuilder)
      requires Valid() && b.Valid() && b.prototype.kind.OptionKind?
      modifies this`options
      ensures r == this && options == Put(old(options), b.prototype.name, b.prototype)
      ensures Valid()
    {
      RegisterReplacing(options, b.prototype);
      options := Put(options, b.prototype.name, b.prototype);
      return this;
    }
  }
}
