/**
 * One option definition: a configuration array projected onto the ten keys
 * the definition keeps, rejected when its "arg" entry is falsy, and the
 * three user-facing messages with their built-in fallbacks.
 *
 * A definition is never changed after construction, so it is a value here;
 * the throwing constructor becomes a method that returns a Result.
 */
module OptionDefinitions {
  import opened PhpValues

  /** The keys a definition keeps, in the order the constructor visits them. */
  const Fields: seq<string> :=
    ["arg", "alias", "required", "default", "help", "prompt", "pattern", "promptMsg", "patternMsg", "requiredMsg"]

  /** The message of the exception thrown for a configuration without a usable "arg". */
  const ArgRequiredError: string := "Invalid option provided, \"arg\" key is required."

  /** Success, or the message of the exception the constructor throws. */
  datatype Result<T> = Success(value: T) | Failure(error: string)

  /**
   * The array the constructor's loop has built after visiting `keys` in
   * order: every visited key, mapped to the configuration's value or null.
   */
  function Project(options: Config, keys: seq<string>): Config
  {
    if keys == [] then map[]
    else
      var k := keys[|keys| - 1];
      Project(options, keys[..|keys| - 1])[k := Lookup(options, k)]
  }

  /** The projection holds exactly the visited keys, each with the input's value or null. */
  lemma {:induction false} ProjectFields(options: Config, keys: seq<string>)
    ensures Project(options, keys).Keys == set k | k in keys
    ensures forall k :: k in keys ==> Project(options, keys)[k] == Lookup(options, k)
  {
    if keys != [] {
      var init, last := keys[..|keys| - 1], keys[|keys| - 1];
      ProjectFields(options, init);
      assert keys == init + [last];
      assert forall k :: k in keys <==> k in init || k == last;
    }
  }

  datatype OptionDefinition = OptionDefinition(data: Config)
  {
    /** A constructed definition: exactly the ten kept keys, with a truthy "arg". */
    predicate Valid()
    {
      data.Keys == (set k | k in Fields) && Truthy(data["arg"])
    }

    /** `__get`: the stored value of a field; null for a name that is not kept. */
    function Get(name: string): (v: Value)
      ensures name in data ==> v == data[name]
      ensures name !in data ==> v == Null
    {
      Lookup(data, name)
    }

    /**
     * The message for a missing required option: the "requiredMsg" override
     * when it is truthy, otherwise "Option -<arg> is required.".
     * Either way the message is itself truthy.
     */
    function RequiredMsg(): (r: Value)
      ensures Truthy(r)
      ensures Truthy(Get("requiredMsg")) ==> r == Get("requiredMsg")
      ensures !Truthy(Get("requiredMsg")) ==>
        r == Str("Option -" + ToStr(Get("arg")) + " is required.")
    {
      if Truthy(Get("requiredMsg")) then Get("requiredMsg")
      else Str("Option -" + ToStr(Get("arg")) + " is required.")
    }

    /**
     * The message for a value that fails the option's pattern: the
     * "patternMsg" override when it is truthy, otherwise
     * "Option -<arg> must match pattern: <pattern>" followed by a newline.
     */
    function PatternMsg(): (r: Value)
      ensures Truthy(r)
      ensures Truthy(Get("patternMsg")) ==> r == Get("patternMsg")
      ensures !Truthy(Get("patternMsg")) ==>
        r == Str("Option -" + ToStr(Get("arg")) + " must match pattern: " + ToStr(Get("pattern")) + "\n")
    {
      if Truthy(Get("patternMsg")) then Get("patternMsg")
      else Str("Option -" + ToStr(Get("arg")) + " must match pattern: " + ToStr(Get("pattern")) + "\n")
    }

    /**
     * The message asking the user for a value: the "promptMsg" override when
     * it is truthy, otherwise "Please enter (<help>):".
     */
    function PromptMessage(): (r: Value)
      ensures Truthy(r)
      ensures Truthy(Get("promptMsg")) ==> r == Get("promptMsg")
      ensures !Truthy(Get("promptMsg")) ==> r == Str("Please enter (" + ToStr(Get("help")) + "):")
    {
      if Truthy(Get("promptMsg")) then Get("promptMsg")
      else Str("Please enter (" + ToStr(Get("help")) + "):")
    }
  }

  /**
   * What `new OptionDefinition($options)` yields: the projection onto the
   * kept keys, or the exception when the projected "arg" is falsy.
   */
  function Construct(options: Config): Result<OptionDefinition>
  {
    ProjectFields(options, Fields);
    var result := Project(options, Fields);
    if !Truthy(result["arg"]) then Failure(ArgRequiredError) else Success(OptionDefinition(result))
  }

  /**
   * The constructor, as the source runs it: a loop fills a local array key
   * by key, then either throws or hands the array to the new definition.
   * Nothing is produced when the check fails.
   */
  method NewOptionDefinition(options: Config) returns (r: Result<OptionDefinition>)
    ensures r == Construct(options)
    ensures r.Success? <==> Truthy(Lookup(options, "arg"))
    ensures r.Failure? ==> r.error == ArgRequiredError
  {
    var result: Config := map[];
    for i := 0 to |Fields|
      invariant result == Project(options, Fields[..i])
    {
      var arg := Fields[i];
      result := result[arg := if arg in options then options[arg] else Null];
      assert Fields[..i + 1][..i] == Fields[..i];
    }
    assert Fields[..|Fields|] == Fields;
    ProjectFields(options, Fields);
    if !Truthy(result["arg"]) {
      return Failure(ArgRequiredError);
    }
    r := Success(OptionDefinition(result));
  }

  /** Construction succeeds exactly when "arg" is present and truthy. */
  lemma ConstructSucceedsIff(options: Config)
    ensures Construct(options).Success? <==> "arg" in options && Truthy(options["arg"])
    ensures Construct(options).Failure? ==> Construct(options).error == ArgRequiredError
  {
    ProjectFields(options, Fields);
  }

  /**
   * A constructed definition keeps each of the ten keys with the input's
   * value, or null when the input lacks it, and drops every other key.
   */
  lemma ConstructKeepsFields(options: Config, name: string)
    requires Construct(options).Success?
    ensures Construct(options).value.Valid()
    ensures name in Construct(options).value.data <==> name in Fields
    ensures Construct(options).value.Get(name) == if name in Fields then Lookup(options, name) else Null
  {
    ProjectFields(options, Fields);
  }

  /**
   * A falsy override ("", "0", false, 0 or null) gives the same message as
   * no override at all.
   */
  lemma FalsyOverrideFallsBack(d: OptionDefinition, key: string, v: Value)
    requires key in {"requiredMsg", "patternMsg", "promptMsg"} && !Truthy(v)
    ensures OptionDefinition(d.data[key := v]).RequiredMsg() == OptionDefinition(d.data - {key}).RequiredMsg()
    ensures OptionDefinition(d.data[key := v]).PatternMsg() == OptionDefinition(d.data - {key}).PatternMsg()
    ensures OptionDefinition(d.data[key := v]).PromptMessage() == OptionDefinition(d.data - {key}).PromptMessage()
  {
  }

  /** The default required message names the option: stripping its fixed text gives back the arg. */
  lemma RequiredMsgNamesArg(d: OptionDefinition)
    requires !Truthy(d.Get("requiredMsg"))
    ensures var m := d.RequiredMsg().s;
      |m| == |ToStr(d.Get("arg"))| + 21 && m[8..|m| - 13] == ToStr(d.Get("arg"))
  {
  }

  /** The default prompt names the help text: stripping its fixed text gives back the help. */
  lemma PromptMessageNamesHelp(d: OptionDefinition)
    requires !Truthy(d.Get("promptMsg"))
    ensures var m := d.PromptMessage().s;
      |m| == |ToStr(d.Get("help"))| + 16 && m[14..|m| - 2] == ToStr(d.Get("help"))
  {
  }

  /**
   * The default pattern message names both the option and its pattern:
   * "Option -", the rendered arg, " must match pattern: ", the rendered
   * pattern and a final newline, each recoverable by position.
   */
  lemma PatternMsgNamesArgAndPattern(d: OptionDefinition)
    requires !Truthy(d.Get("patternMsg"))
    ensures var m, a, p := d.PatternMsg().s, ToStr(d.Get("arg")), ToStr(d.Get("pattern"));
      |m| == |a| + |p| + 30
      && m[..8] == "Option -"
      && m[8..8 + |a|] == a
      && m[8 + |a|..29 + |a|] == " must match pattern: "
      && m[29 + |a|..|m| - 1] == p
      && m[|m| - 1] == '\n'
  {
    var m, a, p := d.PatternMsg().s, ToStr(d.Get("arg")), ToStr(d.Get("pattern"));
    assert m == "Option -" + a + " must match pattern: " + p + "\n";
  }

  /** The first configuration of the message test: no overrides. */
  const MessageTestConfig: Config :=
    map["arg" := Str("test"), "pattern" := Str("/pattern/"), "help" := Str("test parameter")]

  /** Constructing from the message test's configuration succeeds and keeps its values. */
  lemma MessageTestDefinition()
    ensures Construct(MessageTestConfig).Success?
    ensures var d := Construct(MessageTestConfig).value;
      d.Get("arg") == Str("test") && d.Get("pattern") == Str("/pattern/") && d.Get("help") == Str("test parameter")
      && d.Get("requiredMsg") == Null && d.Get("patternMsg") == Null && d.Get("promptMsg") == Null
  {
    var c := MessageTestConfig;
    ConstructSucceedsIff(c);
    ConstructKeepsFields(c, "arg");
    ConstructKeepsFields(c, "pattern");
    ConstructKeepsFields(c, "help");
    ConstructKeepsFields(c, "requiredMsg");
    ConstructKeepsFields(c, "patternMsg");
    ConstructKeepsFields(c, "promptMsg");
  }

  // The three messages of any definition holding the message test's values.

  lemma RequiredMsgOfTestValues(d: OptionDefinition)
    requires d.Get("arg") == Str("test") && d.Get("requiredMsg") == Null
    ensures d.RequiredMsg() == Str("Option -test is required.")
  {
    assert ToStr(d.Get("arg")) == "test";
  }

  lemma PatternMsgOfTestValues(d: OptionDefinition)
    requires d.Get("arg") == Str("test") && d.Get("pattern") == Str("/pattern/") && d.Get("patternMsg") == Null
    ensures d.PatternMsg() == Str("Option -test must match pattern: /pattern/\n")
    ensures d.PatternMsg() != Str("Option -test must match pattern: /pattern/")
  {
    var a, p := ToStr(d.Get("arg")), ToStr(d.Get("pattern"));
    assert a == "test";
    assert p == "/pattern/";
    var m := "Option -" + a + " must match pattern: " + p + "\n";
    assert d.PatternMsg() == Str(m);
    assert m == "Option -test must match pattern: /pattern/\n";
    assert |m| == 43;
  }

  lemma PromptMessageOfTestValues(d: OptionDefinition)
    requires d.Get("help") == Str("test parameter") && d.Get("promptMsg") == Null
    ensures d.PromptMessage() == Str("Please enter (test parameter):")
    ensures d.PromptMessage() != Str("Please enter: test parameter")
  {
    assert |d.PromptMessage().s| == 30;
  }

  lemma RequiredMsgOfMessageTest()
    ensures Construct(MessageTestConfig).Success?
    ensures Construct(MessageTestConfig).value.RequiredMsg() == Str("Option -test is required.")
  {
    MessageTestDefinition();
    RequiredMsgOfTestValues(Construct(MessageTestConfig).value);
  }

  /** The default pattern message keeps its trailing newline. */
  lemma PatternMsgOfMessageTest()
    ensures Construct(MessageTestConfig).Success?
    ensures Construct(MessageTestConfig).value.PatternMsg() == Str("Option -test must match pattern: /pattern/\n")
    ensures Construct(MessageTestConfig).value.PatternMsg() != Str("Option -test must match pattern: /pattern/")
  {
    MessageTestDefinition();
    PatternMsgOfTestValues(Construct(MessageTestConfig).value);
  }

  /** The default prompt puts the help text in parentheses before the colon. */
  lemma PromptMessageOfMessageTest()
    ensures Construct(MessageTestConfig).Success?
    ensures Construct(MessageTestConfig).value.PromptMessage() == Str("Please enter (test parameter):")
    ensures Construct(MessageTestConfig).value.PromptMessage() != Str("Please enter: test parameter")
  {
    MessageTestDefinition();
    PromptMessageOfTestValues(Construct(MessageTestConfig).value);
  }
}
