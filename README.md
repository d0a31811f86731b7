# foxlabs-cli command-line descriptors in Dafny

This project models the descriptor core of foxlabs-cli, the class
`CommandLine` in `src/main/java/org/foxlabs/cli/CommandLine.java`. That class
holds the descriptors of a command-line grammar and the builders that put
them together:

- a **command** has a name, a description, three insertion-ordered maps
  (options, arguments and subcommands, each keyed by name), a provider of
  command handlers, and a cached answer to "is this command runnable";
- a **parameter** (an option or an argument) has a type, a name, a
  description, the sources of its default value (a system property, an
  environment variable, an input prompt), a converter, a constraint, a
  getter, a setter and three flags (password, required, hidden); an option
  also has an ordered set of aliases;
- a **command builder** fills a prototype command in place. Its `option`,
  `argument` and `subcommand` calls hand out child builders whose `build()`
  registers the finished descriptor in the prototype's map with
  `putIfAbsent` and returns the parent builder. A name that is already
  registered fails with `IllegalStateException`. The root `CommandLine.Builder`
  instead uses `put`, so the last option of a name wins;
- every descriptor renders itself as text (`toString(StringBuilder)`).

Modules, one per file:

| file | module | what it holds |
|---|---|---|
| `wrappers.dfy` | `Wrappers` | `Option` and `Result` |
| `text.dfy` | `Text` | `Character.isWhitespace`, the non-whitespaced and non-blank checks, joining and splitting text at spaces |
| `ordered_maps.dfy` | `OrderedMaps` | `LinkedHashMap` as a sequence of (key, value) pairs with distinct keys; `putIfAbsent` and `put` |
| `errors.dfy` | `Errors` | the exceptions as values, and the duplicate-name message |
| `parameters.dfy` | `Parameters` | the parameter value, its constructors and alias normalisation |
| `rendering.dfy` | `Rendering` | each rendering as a specification function, and the step-by-step appends of the Java code proved to produce it |
| `reading.dfy` | `Reading` | parsers for the renderings and the proofs that a rendering reads back to the descriptor's shape |
| `commands.dfy` | `Commands` | the classes `Command`, `CommandBuilder`, `ParameterBuilder` and `CommandLineBuilder` |

How the Java maps to Dafny:

- A `LinkedHashMap<String, V>` is an `OrderedMap<V>`, a `seq<(string, V)>`
  whose keys are distinct. Iteration order is sequence order.
- `Command` is a class. `isRunnable` writes its cache field, and a builder
  changes the maps, description and provider of its prototype command in
  place. A frozen command is a new `Command` object whose maps are copies of
  the prototype's. It carries the ghost mark `frozen`. A builder creates its
  own prototype, which is never frozen, so no builder method can reach a
  frozen command's maps.
- A parameter is a datatype value. `Parameter(Builder)` copies every field of
  the prototype, so a built parameter is the prototype value at build time.
  `ParameterBuilder` holds the prototype in a field that its setters
  reassign.
- The `build()` of each anonymous child builder is a method of the builder
  that created it: `CommandBuilder.BuildOption`, `CommandBuilder.BuildArgument`,
  `CommandLineBuilder.BuildOption`, and `CommandBuilder.Build` for a
  subcommand builder, which returns to its `parent`.
- An exception is a `Failure` value of the `Result` a method returns. A
  failing call changes no state.
- A `StringBuilder` is a string value. An append method takes the buffer's
  text and returns the extended text.
- `provider.get()` followed by the `instanceof Runnable || instanceof
  Callable` test is the boolean parameter `handlerIsRunnable`. It says what
  the handler supplied on that call is. A ghost counter records how many
  handlers a command has asked its provider for.

## Model

| member | source | states |
|---|---|---|
| `OrderedMaps.PutIfAbsent` | src/main/java/org/foxlabs/cli/CommandLine.java:344 | returns the previous value of the key; with one, the map is unchanged; without one, exactly one entry is appended at the end; keys stay distinct and every other key keeps its value |
| `OrderedMaps.PutSemantics` | src/main/java/org/foxlabs/cli/CommandLine.java:78 | `put` keeps keys distinct, keeps the key order (a new key goes last), maps the key to the new value and leaves every other key alone |
| `OrderedMaps.PutPut` | src/main/java/org/foxlabs/cli/CommandLine.java:77-80 | of two puts under one name the last wins: the first leaves no trace |
| `Errors.ConflictMessageIdentifies` | src/main/java/org/foxlabs/cli/CommandLine.java:345-346 | the message "Command NAME: Option already defined: NAME" (and its Argument and Subcommand forms) reads back to exactly the command, the kind of entry and the duplicate name |
| `Parameters.NormalizeAliases` | src/main/java/org/foxlabs/cli/CommandLine.java:935-940 | succeeds exactly when every alias has no whitespace; the result contains exactly the aliases other than the name, each once, in first-occurrence order; a failure reports the first offending alias |
| `Parameters.NewParameter` | src/main/java/org/foxlabs/cli/CommandLine.java:513-520 | fails exactly on a name with whitespace; otherwise the default converter of the type, the identity constraint, the null-stub getter and the unsupported-stub setter, and nothing else set |
| `Parameters.NewOption` | src/main/java/org/foxlabs/cli/CommandLine.java:933-941 | the name is checked before the aliases; succeeds exactly when the name and every alias have no whitespace; the aliases form the alias set of the input, empty when none are given; the result is well-formed |
| `Parameters.NewArgument` | src/main/java/org/foxlabs/cli/CommandLine.java:1059-1061 | fails exactly on a name with whitespace; otherwise a well-formed argument |
| `Rendering.AttributesShape` | src/main/java/org/foxlabs/cli/CommandLine.java:680-685 | R appears exactly with a getter, W exactly with a setter, H exactly when hidden; no other letter; in the order R, W, H |
| `Rendering.AppendAttributes` | src/main/java/org/foxlabs/cli/CommandLine.java:680-685 | the three appends produce the attribute text |
| `Rendering.BuiltParameterIsReadWrite` | src/main/java/org/foxlabs/cli/CommandLine.java:518-519 | the getter and setter stubs are non-null, so every well-formed parameter renders its attributes starting with "RW" |
| `Rendering.DefaultSourcesShape` | src/main/java/org/foxlabs/cli/CommandLine.java:705-728 | the default sources are exactly the declared (non-empty) ones, each once, in the order system property, environment variable, prompt |
| `Rendering.AppendDefaults` | src/main/java/org/foxlabs/cli/CommandLine.java:705-728 | the appends with the running separator produce the sources joined by " \| ", or "null" when there are none |
| `Rendering.AppendOption` | src/main/java/org/foxlabs/cli/CommandLine.java:991-1008 | the appends, with the loop over the aliases, produce the option text: bracket, attributes, name, " \| alias" for each alias, " : type", bracket, " = (defaults)" |
| `Rendering.AppendArgument` | src/main/java/org/foxlabs/cli/CommandLine.java:1098-1111 | the appends produce the argument text, with the defaults inside the brackets |
| `Rendering.AppendParameters` | src/main/java/org/foxlabs/cli/CommandLine.java:272 | each parameter of a map, in map order, is rendered after a space |
| `Rendering.AppendSubcommandNames` | src/main/java/org/foxlabs/cli/CommandLine.java:275-279 | the iterator loop renders the subcommand names joined by " \| " in brackets |
| `Reading.DefaultsRoundTrip` | src/main/java/org/foxlabs/cli/CommandLine.java:705-728 | the defaults text reads back to exactly the declared sources in order, and it is "null" exactly when none is declared |
| `Reading.OptionWords` | src/main/java/org/foxlabs/cli/CommandLine.java:991-1008 | an option's text splits into: bracket with attributes, name, a "\|" and each alias, ":", type with the closing bracket, "=", and the bracketed defaults outside the parameter's brackets |
| `Reading.OptionRoundTrip` | src/main/java/org/foxlabs/cli/CommandLine.java:991-1008 | an option's text reads back to its required flag, attributes, name, aliases in order, type and default sources |
| `Reading.ArgumentWords` | src/main/java/org/foxlabs/cli/CommandLine.java:1098-1111 | an argument's text splits into: bracket with attributes, name, ":", type, "=", and the bracketed defaults followed by the closing bracket |
| `Reading.ArgumentRoundTrip` | src/main/java/org/foxlabs/cli/CommandLine.java:1098-1111 | an argument's text reads back to its required flag, attributes, name, type and default sources |
| `Reading.CommandWords` | src/main/java/org/foxlabs/cli/CommandLine.java:268-288 | a command's text splits into its name, the words of each option in order, the bracketed subcommand names separated by "\|", and the words of each argument in order |
| `Reading.RunnableMarkShown` | src/main/java/org/foxlabs/cli/CommandLine.java:275-283 | whether the command is runnable changes its text exactly when it has subcommands |
| `Commands.RegisterIfAbsent` | src/main/java/org/foxlabs/cli/CommandLine.java:344 | registering a well-formed parameter under its name keeps a command's map registered, and a taken name leaves the map as it was |
| `Commands.AliasNotReserved` | src/main/java/org/foxlabs/cli/CommandLine.java:344 | the map is keyed by option names only: an option named "b" is accepted beside an option "a" that has the alias "b" |
| `Commands.RegisterReplacing` | src/main/java/org/foxlabs/cli/CommandLine.java:78 | the root's put keeps the option map registered; a new name goes last, a known one keeps its place and maps to the new option |
| `Commands.RunnableIsCached` | src/main/java/org/foxlabs/cli/CommandLine.java:231-241 | once a provider has been asked, later answers repeat the first whatever later handlers are; without a provider the answer is false and nothing is cached |
| `Commands.Command.Named` | src/main/java/org/foxlabs/cli/CommandLine.java:142-147 | fails exactly on a name with whitespace; otherwise an empty command of that name |
| `Commands.Command.FromPrototype` | src/main/java/org/foxlabs/cli/CommandLine.java:155-168 | fails with a null-pointer error exactly when the provider is missing; otherwise a new frozen command with the prototype's name, description, provider and copies of its three maps (same keys, same order), and no cached answer |
| `Commands.Command.IsRunnable` | src/main/java/org/foxlabs/cli/CommandLine.java:231-241 | returns the cached answer if there is one; otherwise false without a provider (nothing cached), or what the supplied handler is, cached; the provider is asked at most once |
| `Commands.Command.ToString` | src/main/java/org/foxlabs/cli/CommandLine.java:268-288 | produces the command text; asks isRunnable only when there are subcommands, leaving the cache and the request count as isRunnable does, and otherwise unchanged |
| `Commands.CommandBuilder.constructor` | src/main/java/org/foxlabs/cli/CommandLine.java:312-314 | for a checked name, a builder around its own new prototype: empty, unprovided, not frozen, with the given parent |
| `Commands.CommandBuilder.New` | src/main/java/org/foxlabs/cli/CommandLine.java:312-314 | fails exactly on a name with whitespace; otherwise a builder around a new, empty prototype |
| `Commands.CommandBuilder.Description` | src/main/java/org/foxlabs/cli/CommandLine.java:322-325 | a non-blank text becomes the description and the builder is returned; a blank one fails and changes nothing |
| `Commands.CommandBuilder.Option` | src/main/java/org/foxlabs/cli/CommandLine.java:339-341 | hands out a builder around the new option, or the option constructor's failure; registers nothing |
| `Commands.CommandBuilder.BuildOption` | src/main/java/org/foxlabs/cli/CommandLine.java:342-349 | a taken name fails with the duplicate-option error and leaves the map unchanged; a new name appends exactly the built option at the end and returns this builder |
| `Commands.CommandBuilder.Argument` | src/main/java/org/foxlabs/cli/CommandLine.java:364-366 | hands out a builder around the new argument, or the name check's failure |
| `Commands.CommandBuilder.BuildArgument` | src/main/java/org/foxlabs/cli/CommandLine.java:367-374 | a taken name fails with the duplicate-argument error and leaves the map unchanged; a new name appends exactly the built argument at the end and returns this builder |
| `Commands.CommandBuilder.Subcommand` | src/main/java/org/foxlabs/cli/CommandLine.java:388-390 | hands out a builder for a new subcommand (no description, parameters, subcommands or provider) whose parent is this builder, or the name check's failure |
| `Commands.CommandBuilder.Build` | src/main/java/org/foxlabs/cli/CommandLine.java:391-398 | a missing provider fails first; then a taken name fails with the duplicate-subcommand error; either failure leaves the parent's subcommands unchanged; otherwise exactly one entry is appended, a new frozen command holding the prototype's properties, and the parent builder is returned |
| `Commands.CommandBuilder.Provider` | src/main/java/org/foxlabs/cli/CommandLine.java:408-411 | the factory becomes the provider and the builder is returned |
| `Commands.CommandBuilder.ToString` | src/main/java/org/foxlabs/cli/CommandLine.java:419-421 | the prototype's command text; with subcommands the prototype's runnable cache and request count become what isRunnable leaves, without them they are unchanged |
| `Commands.ParameterBuilder.ForOption` | src/main/java/org/foxlabs/cli/CommandLine.java:1032-1034 | a builder around the new option, or the option constructor's failure |
| `Commands.ParameterBuilder.ForArgument` | src/main/java/org/foxlabs/cli/CommandLine.java:1134-1136 | a builder around the new argument, or the name check's failure |
| `Commands.ParameterBuilder.Description` | src/main/java/org/foxlabs/cli/CommandLine.java:769-772 | a non-blank text becomes the description, nothing else changes; a blank one fails and changes nothing |
| `Commands.ParameterBuilder.Property` | src/main/java/org/foxlabs/cli/CommandLine.java:780-783 | a name without whitespace becomes the system property; otherwise a failure and no change |
| `Commands.ParameterBuilder.Variable` | src/main/java/org/foxlabs/cli/CommandLine.java:791-794 | a name without whitespace becomes the environment variable; otherwise a failure and no change |
| `Commands.ParameterBuilder.Prompt` | src/main/java/org/foxlabs/cli/CommandLine.java:803-806 | a non-blank message becomes the prompt; otherwise a failure and no change |
| `Commands.ParameterBuilder.WithConverter` | src/main/java/org/foxlabs/cli/CommandLine.java:814-817 | sets the converter and nothing else |
| `Commands.ParameterBuilder.WithConstraint` | src/main/java/org/foxlabs/cli/CommandLine.java:825-828 | sets the constraint and nothing else |
| `Commands.ParameterBuilder.WithGetter` | src/main/java/org/foxlabs/cli/CommandLine.java:836-839 | sets the getter and nothing else |
| `Commands.ParameterBuilder.WithSetter` | src/main/java/org/foxlabs/cli/CommandLine.java:847-850 | sets the setter and nothing else |
| `Commands.ParameterBuilder.Password` | src/main/java/org/foxlabs/cli/CommandLine.java:857-860 | sets the password flag and nothing else |
| `Commands.ParameterBuilder.Required` | src/main/java/org/foxlabs/cli/CommandLine.java:867-870 | sets the required flag and nothing else |
| `Commands.ParameterBuilder.Optional` | src/main/java/org/foxlabs/cli/CommandLine.java:877-880 | clears the required flag and nothing else |
| `Commands.ParameterBuilder.Hidden` | src/main/java/org/foxlabs/cli/CommandLine.java:887-890 | sets the hidden flag and nothing else |
| `Commands.ParameterBuilder.ToString` | src/main/java/org/foxlabs/cli/CommandLine.java:899-901 | the prototype's option or argument text |
| `Commands.CommandLineBuilder.constructor` | src/main/java/org/foxlabs/cli/CommandLine.java:57-60 | a root builder with no options |
| `Commands.CommandLineBuilder.Option` | src/main/java/org/foxlabs/cli/CommandLine.java:75-76 | hands out a builder around the new option, or the option constructor's failure |
| `Commands.CommandLineBuilder.BuildOption` | src/main/java/org/foxlabs/cli/CommandLine.java:77-80 | puts the built option under its name (never fails; a known name keeps its place and takes the new option) and returns the root builder |

Every parameter builder and command builder keeps its descriptor
well-formed (`Valid`): names and property and variable names without
whitespace, descriptions and prompts not blank, option aliases without
whitespace, distinct and different from the name, map keys equal to the
names of their entries and distinct, and a cached runnable answer only
where the provider was asked for exactly one handler.

## Left out

- `CommandLineParser`: its `parse` method is empty, and its grammar exists only as a comment.
- The annotation types `Command`, `Option` and `Argument` declare attribute defaults and hold no logic.
- `CommandLine.Builder.command` returns null, `CommandLine(Builder)` ignores its builder, and `CommandLine.Builder.build` only calls it; there is nothing to model beyond that.
- The root `arguments` map of `CommandLine` is never written, so it is not modelled.
- The getters of `Command` and `Parameter` only return fields; the model's fields are read directly.
- `Class.getName()` is reflection: a type is the string `typeName`, and the read-back lemmas assume it has no whitespace, as Java class names do not.
- `provider.get()` and the `instanceof` test are a boolean supplied by the caller of `IsRunnable`; what a handler does is not modelled.
- Converters, constraints, getters and setters come from libraries that are not part of this model: each is an opaque identifier or the named default.
- `require(x, STRING_NON_WHITESPACED)` and `require(x, STRING_NON_BLANK)` come from a library that is not part of this model. They are read as "non-empty with no `Character.isWhitespace` character" and "some character that is not whitespace".
- `Strings.isNonEmpty` is read as "not null and not empty".
- Null arguments: Dafny values are never null, so the `requireNonNull` checks of the parameter type and of the converter, constraint, getter, setter and provider setters cannot fail here. Only the provider that was never set is modelled, as `None`.
- `ToString.Adapter.toString()` comes from a library that is not part of this model; a builder's `toString()` is taken to render into an empty buffer.
- Generic type parameters and the unmodifiable wrappers around frozen maps are not modelled. A frozen command is marked `frozen` instead, and no builder holds a frozen prototype. So builder methods cannot change it, and `IsRunnable` writes only its cache.
- Validity of subcommands: `Command.Valid` records that its subcommands are frozen and keyed by name, but not that each subcommand is itself valid. A client that reads a subcommand out of the map must establish its `Valid()` before calling `IsRunnable` or `ToString` on it. Carrying it would need a footprint of every nested command.
- Option aliases are not checked against other options' names and aliases: `putIfAbsent` keys the map by name only, and `Commands.AliasNotReserved` shows an accepted clash.
- `Commands.CommandBuilder.Build`: a command builder always has a parent here, because `Command.Builder` is abstract and its only subclass in this file is the subcommand builder; the root builder's `build()` has no body to model.
