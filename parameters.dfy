/**
  Parameter descriptors (CommandLine.Parameter with its two kinds, Option and
  Argument): the value a parameter builder assembles and a command keeps in
  its option and argument maps.
 */
module Parameters {
  import opened Wrappers
  import opened Text
  import opened Errors

  /** The collaborators from the validation and common libraries, which are not
      part of this model, as opaque values. A converter is the default one for
      the parameter's type or one the builder was given; likewise the
      constraint (identity by default), getter (a stub returning null by
      default) and setter (a stub that refuses by default). */
  datatype Converter = DefaultConverter(typeName: string) | GivenConverter(id: nat)
  datatype Constraint = IdentityConstraint | GivenConstraint(id: nat)
  datatype Getter = NullStubGetter | GivenGetter(id: nat)
  datatype Setter = UnsupportedStubSetter | GivenSetter(id: nat)

  /** An Option carries the aliases of its name; an Argument nothing more. */
  datatype Kind = OptionKind(aliases: seq<string>) | ArgumentKind

  /** Every field of a parameter descriptor. `typeName` is Class.getName() of
      the value type; the Option-typed fields are None where Java holds null. */
  datatype Parameter = Parameter(
    kind: Kind,
    typeName: string,
    name: string,
    description: Option<string>,
    property: Option<string>,
    variable: Option<string>,
    prompt: Option<string>,
    converter: Converter,
    constraint: Constraint,
    getter: Option<Getter>,
    setter: Option<Setter>,
    password: bool,
    required: bool,
    hidden: bool)

  /** The position of the first occurrence of x in s. */
  function FirstIndex(s: seq<string>, x: string): (i: nat)
    requires x in s
    ensures i < |s| && s[i] == x
    ensures forall j :: 0 <= j < i ==> s[j] != x
  {
    if s[0] == x then 0 else 1 + FirstIndex(s[1..], x)
  }

  lemma {:induction false} FirstIndexIs(s: seq<string>, x: string, i: nat)
    requires i < |s| && s[i] == x
    requires forall j :: 0 <= j < i ==> s[j] != x
    ensures FirstIndex(s, x) == i
  {
    if s[0] != x {
      FirstIndexIs(s[1..], x, i - 1);
    }
  }

  /** What the alias set of an option named `name` declared with `aliases`
      is: the declared aliases other than the name, each once, in the order
      of their first occurrence. */
  ghost predicate IsAliasSet(name: string, aliases: seq<string>, r: seq<string>) {
    && (forall a :: a in r <==> a in aliases && a != name)
    && (forall i, j :: 0 <= i < j < |r| ==> r[i] != r[j])
    && (forall i, j :: 0 <= i < j < |r| ==> FirstIndex(aliases, r[i]) < FirstIndex(aliases, r[j]))
  }

  /** The first alias that fails the whitespace check, the one whose
      exception the lazy stream raises. */
  ghost predicate FirstInvalidAlias(aliases: seq<string>, i: nat) {
    && i < |aliases|
    && !NonWhitespaced(aliases[i])
    && forall j :: 0 <= j < i ==> NonWhitespaced(aliases[j])
  }

  /** The alias stream of the Option constructor: each alias is checked to be
      non-whitespaced (peek), aliases equal to the name are dropped (filter)
      and the rest are collected into a LinkedHashSet. The stream is lazy, so
      aliases are processed one at a time from the left and the first
      offending alias raises the exception. */
  function NormalizeAliases(name: string, aliases: seq<string>): (r: Result<seq<string>, Error>)
    ensures r.Success? <==> forall i :: 0 <= i < |aliases| ==> NonWhitespaced(aliases[i])
    ensures r.Success? ==> IsAliasSet(name, aliases, r.value)
    ensures r.Failure? ==>
      exists i: nat :: FirstInvalidAlias(aliases, i) && r.error == IllegalArgument(NonWhitespacedCheck, aliases[i])
    decreases |aliases|
  {
    if |aliases| == 0 then Success([])
    else
      var n := |aliases| - 1;
      var init := NormalizeAliases(name, aliases[..n]);
      NormalizeStep(name, aliases, init);
      if init.Failure? then init
      else if !NonWhitespaced(aliases[n]) then Failure(IllegalArgument(NonWhitespacedCheck, aliases[n]))
      else if aliases[n] == name || aliases[n] in init.value then init
      else Success(init.value + [aliases[n]])
  }

  /** One step of the stream: the contract for all aliases but the last
      extends to all of them. */
  lemma NormalizeStep(name: string, aliases: seq<string>, init: Result<seq<string>, Error>)
    requires |aliases| > 0
    requires var front := aliases[..|aliases| - 1];
      && (init.Success? <==> forall i :: 0 <= i < |front| ==> NonWhitespaced(front[i]))
      && (init.Success? ==> IsAliasSet(name, front, init.value))
      && (init.Failure? ==>
            exists i: nat :: FirstInvalidAlias(front, i) && init.error == IllegalArgument(NonWhitespacedCheck, front[i]))
    ensures var n := |aliases| - 1;
      && (init.Failure? ==>
            exists i: nat :: FirstInvalidAlias(aliases, i) && init.error == IllegalArgument(NonWhitespacedCheck, aliases[i]))
      && (init.Success? && !NonWhitespaced(aliases[n]) ==> FirstInvalidAlias(aliases, n))
      && (init.Success? && NonWhitespaced(aliases[n]) ==>
            && (forall i :: 0 <= i < |aliases| ==> NonWhitespaced(aliases[i]))
            && (aliases[n] == name || aliases[n] in init.value ==> IsAliasSet(name, aliases, init.value))
            && (aliases[n] != name && aliases[n] !in init.value ==> IsAliasSet(name, aliases, init.value + [aliases[n]])))
  {
    var n := |aliases| - 1;
    var front := aliases[..n];
    assert aliases == front + [aliases[n]];
    if init.Failure? {
      var i: nat :| FirstInvalidAlias(front, i) && init.error == IllegalArgument(NonWhitespacedCheck, front[i]);
      assert FirstInvalidAlias(aliases, i);
    } else if NonWhitespaced(aliases[n]) {
      AliasStep(name, front, aliases[n], init.value);
    }
  }

  lemma AliasStep(name: string, front: seq<string>, a: string, r: seq<string>)
    requires IsAliasSet(name, front, r)
    ensures a == name || a in r ==> IsAliasSet(name, front + [a], r)
    ensures a != name && a !in r ==> IsAliasSet(name, front + [a], r + [a])
  {
    var s := front + [a];
    forall x | x in front ensures FirstIndex(s, x) == FirstIndex(front, x) {
      FirstIndexIs(s, x, FirstIndex(front, x));
    }
    if a != name && a !in r {
      assert a !in front;
      FirstIndexIs(s, a, |front|);
      var r' := r + [a];
      forall i, j | 0 <= i < j < |r'| ensures FirstIndex(s, r'[i]) < FirstIndex(s, r'[j]) {
        assert r'[i] in front;
        if j == |r| {
          assert FirstIndex(front, r'[i]) < |front|;
        }
      }
    }
  }

  /** The Parameter(type, name) constructor: the name must be non-whitespaced;
      the converter is the type's default one, the constraint the identity,
      the getter and setter the library's stubs, everything else unset. */
  function NewParameter(kind: Kind, typeName: string, name: string): (r: Result<Parameter, Error>)
    ensures r.Success? <==> NonWhitespaced(name)
    ensures r.Failure? ==> r.error == IllegalArgument(NonWhitespacedCheck, name)
    ensures r.Success? ==> && r.value.kind == kind && r.value.typeName == typeName
                           && r.value.name == name && r.value.converter == DefaultConverter(typeName)
                           && r.value.description.None? && r.value.property.None?
                           && r.value.variable.None? && r.value.prompt.None?
                           && !r.value.password && !r.value.required && !r.value.hidden
                           && r.value.constraint == IdentityConstraint
                           && r.value.getter == Some(NullStubGetter)
                           && r.value.setter == Some(UnsupportedStubSetter)
  {
    if !NonWhitespaced(name) then Failure(IllegalArgument(NonWhitespacedCheck, name))
    else Success(Parameter(kind, typeName, name, None, None, None, None,
                           DefaultConverter(typeName), IdentityConstraint,
                           Some(NullStubGetter), Some(UnsupportedStubSetter),
                           false, false, false))
  }

  /** The Option(type, name, aliases) constructor: the name is checked first,
      then the aliases are normalised. */
  function NewOption(typeName: string, name: string, aliases: seq<string>): (r: Result<Parameter, Error>)
    ensures r.Success? <==> NonWhitespaced(name) && forall i :: 0 <= i < |aliases| ==> NonWhitespaced(aliases[i])
    ensures !NonWhitespaced(name) ==> r == Failure(IllegalArgument(NonWhitespacedCheck, name))
    ensures r.Success? ==> r.value.kind.OptionKind? && IsAliasSet(name, aliases, r.value.kind.aliases)
    ensures r.Success? ==> WellFormed(r.value) && r.value.name == name && r.value.typeName == typeName
    ensures r.Success? && |aliases| == 0 ==> r.value.kind.aliases == []
  {
    var p :- NewParameter(OptionKind([]), typeName, name);
    var normalized :- NormalizeAliases(name, aliases);
    AliasSetElements(name, aliases, normalized);
    Success(p.(kind := OptionKind(normalized)))
  }

  lemma AliasSetElements(name: string, aliases: seq<string>, r: seq<string>)
    requires IsAliasSet(name, aliases, r)
    requires forall i :: 0 <= i < |aliases| ==> NonWhitespaced(aliases[i])
    ensures forall i :: 0 <= i < |r| ==> NonWhitespaced(r[i]) && r[i] != name
  {
    forall i | 0 <= i < |r| ensures NonWhitespaced(r[i]) && r[i] != name {
      assert r[i] in aliases;
    }
  }

  /** The Argument(type, name) constructor. */
  function NewArgument(typeName: string, name: string): (r: Result<Parameter, Error>)
    ensures r.Success? <==> NonWhitespaced(name)
    ensures r.Failure? ==> r.error == IllegalArgument(NonWhitespacedCheck, name)
    ensures r.Success? ==> r.value.kind == ArgumentKind && WellFormed(r.value)
                           && r.value.name == name && r.value.typeName == typeName
  {
    NewParameter(ArgumentKind, typeName, name)
  }

  /** What every parameter built through the builders satisfies: the checks
      of the constructor and of the setters hold of the stored values, and
      getter and setter are never null. */
  predicate WellFormed(p: Parameter) {
    && NonWhitespaced(p.name)
    && (p.kind.OptionKind? ==>
          && (forall i :: 0 <= i < |p.kind.aliases| ==> NonWhitespaced(p.kind.aliases[i]))
          && (forall i :: 0 <= i < |p.kind.aliases| ==> p.kind.aliases[i] != p.name)
          && (forall i, j :: 0 <= i < j < |p.kind.aliases| ==> p.kind.aliases[i] != p.kind.aliases[j]))
    && (p.description.Some? ==> NonBlank(p.description.value))
    && (p.property.Some? ==> NonWhitespaced(p.property.value))
    && (p.variable.Some? ==> NonWhitespaced(p.variable.value))
    && (p.prompt.Some? ==> NonBlank(p.prompt.value))
    && p.getter.Some? && p.setter.Some?
  }
}
