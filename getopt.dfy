/**
 * The `Getopt` class: its constructor replays a list of configurations
 * through `setOptions`, which projects each onto five keys and hands them to
 * `option`, which overwrites the single `argDefinitions` field. No
 * validation happens on this path.
 */
module Getopt {
  import opened PhpValues
  import OptionDefinitions

  /** The keys `setOptions` passes on to `option`, in parameter order. */
  const ArgKeys: seq<string> := ["arg", "alias", "required", "default", "help"]

  /**
   * The `argDefinitions` field: null until `option` first runs, afterwards
   * the five-field array the last call built.
   */
  datatype ArgDefinitions =
    | Unset
    | ArgRecord(arg: Value, alias: Value, required: Value, default: Value, help: Value)

  /** `array_map` of the key lookup over `keys`: each key's value in `options`, or null. */
  function LookupAll(options: Config, keys: seq<string>): (vs: seq<Value>)
    ensures |vs| == |keys|
    ensures forall i :: 0 <= i < |keys| ==> vs[i] == Lookup(options, keys[i])
  {
    if keys == [] then [] else [Lookup(options, keys[0])] + LookupAll(options, keys[1..])
  }

  /**
   * The record `setOptions(options)` stores: each of the five fields is the
   * configuration's value under that key, or null when the key is absent.
   */
  function RecordOf(options: Config): (r: ArgDefinitions)
    ensures r == ArgRecord(Lookup(options, "arg"), Lookup(options, "alias"), Lookup(options, "required"),
                           Lookup(options, "default"), Lookup(options, "help"))
  {
    var vs := LookupAll(options, ArgKeys);
    ArgRecord(vs[0], vs[1], vs[2], vs[3], vs[4])
  }

  /** Keys other than the five, such as "pattern" or "prompt", make no difference. */
  lemma RecordOfIgnoresOtherKeys(options: Config, key: string, v: Value)
    requires key !in ArgKeys
    ensures RecordOf(options[key := v]) == RecordOf(options)
    ensures RecordOf(options - {key}) == RecordOf(options)
  {
  }

  /** The field after `setOptions` is called with each configuration in turn, starting from `state`. */
  function Replay(state: ArgDefinitions, configs: seq<Config>): ArgDefinitions
    decreases |configs|
  {
    if configs == [] then state else Replay(RecordOf(configs[0]), configs[1..])
  }

  /** Only the last call counts: nothing accumulates across calls. */
  lemma {:induction false} ReplayKeepsLast(state: ArgDefinitions, configs: seq<Config>)
    ensures Replay(state, configs) == if configs == [] then state else RecordOf(configs[|configs| - 1])
    decreases |configs|
  {
    if configs != [] {
      ReplayKeepsLast(RecordOf(configs[0]), configs[1..]);
    }
  }

  /**
   * Unlike a definition, the record takes a configuration without "arg":
   * its arg is null where the definition's constructor throws.
   */
  lemma NoValidationUnlikeDefinition(options: Config)
    requires "arg" !in options
    ensures RecordOf(options).arg == Null
    ensures OptionDefinitions.Construct(options).Failure?
  {
    OptionDefinitions.ConstructSucceedsIff(options);
  }

  class Getopt {
    /** The option record; the source keeps a single one and overwrites it. */
    var argDefinitions: ArgDefinitions

    /** Calls `setOptions` on each configuration in order; the last one wins. */
    constructor (options: seq<Config>)
      ensures argDefinitions == Replay(Unset, options)
      ensures argDefinitions == if options == [] then Unset else RecordOf(options[|options| - 1])
    {
      argDefinitions := Unset;
      new;
      for i := 0 to |options|
        invariant argDefinitions == Replay(Unset, options[..i])
      {
        SetOptions(options[i]);
        ReplayKeepsLast(Unset, options[..i + 1]);
      }
      assert options[..|options|] == options;
      ReplayKeepsLast(Unset, options);
    }

    /** Projects `options` onto the five keys and passes them to `option`, without checking them. */
    method SetOptions(options: Config)
      modifies this
      ensures argDefinitions == RecordOf(options)
    {
      var args := LookupAll(options, ArgKeys);
      Option(args[0], args[1], args[2], args[3], args[4]);
    }

    /** Replaces the whole record with one built from the five arguments. */
    method Option(key: Value, alias: Value, required: Value, default: Value, help: Value)
      modifies this
      ensures argDefinitions == ArgRecord(key, alias, required, default, help)
    {
      argDefinitions := ArgRecord(key, alias, required, default, help);
    }
  }

  /** Two calls to `option` leave only the second record. */
  method OptionTwice(g: Getopt, first: ArgDefinitions, second: ArgDefinitions)
    requires first.ArgRecord? && second.ArgRecord?
    modifies g
    ensures g.argDefinitions == second
  {
    g.Option(first.arg, first.alias, first.required, first.default, first.help);
    g.Option(second.arg, second.alias, second.required, second.default, second.help);
  }
}
