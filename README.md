# Option configuration layer of dlin-me/getopt, in Dafny

This project models the option-configuration layer of the PHP `Dlin\Getopt` library:

- `OptionDefinition` turns a loose key→value configuration array into a record of ten known fields (`arg, alias, required, default, help, prompt, pattern, promptMsg, patternMsg, requiredMsg`). It rejects the configuration when `arg` is falsy. It builds the three user-facing messages (required, pattern, prompt), each with a fallback default.
- The `Getopt` class replays a list of configurations through `setOptions`. `setOptions` projects each configuration onto five keys and passes them to `option`, which overwrites the single `argDefinitions` field.

Files:

- `php_values.dfy` (module `PhpValues`): the PHP scalars a configuration holds (`Value`), PHP truthiness (`Truthy`), PHP string conversion used by `.` (`ToStr`, with integers rendered in decimal) and `array_key_exists(k, m) ? m[k] : null` (`Lookup`).
- `option_definition.dfy` (module `OptionDefinitions`): a definition is never changed after construction, so it is a datatype value. The throwing constructor is the method `NewOptionDefinition`. It runs the same key-by-key loop as the source and returns `Failure(message)` instead of throwing. It is proved equal to the specification function `Construct`, and the lemmas state what `Construct` means.
- `getopt.dfy` (module `Getopt`): class `Getopt` with its one mutable field `argDefinitions`, its constructor loop, `SetOptions` and `Option`. `Replay` is the step-by-step reference for a sequence of `setOptions` calls. `ReplayKeepsLast` proves that only the last call counts.

The model follows the code:

- The default pattern message ends with a newline.
- A message override is used only when it is PHP-truthy, so `""` and `"0"` fall back to the default.
- `arg` is rejected when it is PHP-falsy. That includes `"0"`, `0` and `false`, not just an absent or empty value.

The message test expects no trailing newline (`OptionDefnitionTest.php:28`) and the text `"Please enter: test parameter"` (`OptionDefnitionTest.php:32`). The code produces something else. `PatternMsgOfMessageTest` and `PromptMessageOfMessageTest` prove what the code produces, and prove that it differs from those expectations.

## Model

| member | source | states |
|---|---|---|
| `PhpValues.Truthy` | src/Dlin/Getopt/OptionDefinition.php:31 | PHP's conversion to boolean, as used by `!$result['arg']` and by the three `?:` tests. A value is falsy exactly when it is null, `""`, `"0"`, `false` or `0`. |
| `PhpValues.ToStr` | src/Dlin/Getopt/OptionDefinition.php:60 | The string form that `.` concatenation gives a value is neither `""` nor `"0"` exactly when the value is truthy. |
| `PhpValues.NatToDecimal` | src/Dlin/Getopt/OptionDefinition.php:60 | An integer is rendered as a non-empty string of decimal digits. It has a leading `0` only for zero itself. |
| `PhpValues.DecimalRoundTrip` | src/Dlin/Getopt/OptionDefinition.php:60 | Reading back the decimal rendering of `n` gives `n`, so the rendering loses nothing. |
| `OptionDefinitions.ProjectFields` | src/Dlin/Getopt/OptionDefinition.php:26-30 | The array the constructor's loop builds holds exactly the visited keys. Each key maps to the input's value, or to null when the input lacks it. |
| `OptionDefinitions.NewOptionDefinition` | src/Dlin/Getopt/OptionDefinition.php:23-38 | The constructor loop followed by the check. It succeeds iff `arg` is present and truthy. On failure it yields the exception message and produces no definition. Its result equals `Construct`. |
| `OptionDefinitions.ConstructSucceedsIff` | src/Dlin/Getopt/OptionDefinition.php:31-33 | Construction succeeds iff `"arg"` is in the input and its value is truthy. Otherwise it fails with `Invalid option provided, "arg" key is required.`. |
| `OptionDefinitions.ConstructKeepsFields` | src/Dlin/Getopt/OptionDefinition.php:26-34 | A constructed definition is valid: exactly the ten keys, with a truthy `arg`. Reading any name (`__get`) gives the input's value for the ten keys, and null for an absent key or any other name. |
| `OptionDefinitions.OptionDefinition.Get` | src/Dlin/Getopt/OptionDefinition.php:50-52 | `__get` returns the stored value of a name the definition holds, and null for any other name. `ConstructKeepsFields` ties this to the constructor's input. |
| `OptionDefinitions.OptionDefinition.RequiredMsg` | src/Dlin/Getopt/OptionDefinition.php:59-61 | The result is always truthy. It is the `requiredMsg` override when that is truthy, else exactly `"Option -" + arg + " is required."`. |
| `OptionDefinitions.OptionDefinition.PatternMsg` | src/Dlin/Getopt/OptionDefinition.php:67-69 | The result is always truthy. It is the `patternMsg` override when that is truthy, else `"Option -" + arg + " must match pattern: " + pattern + "\n"`. |
| `OptionDefinitions.OptionDefinition.PromptMessage` | src/Dlin/Getopt/OptionDefinition.php:76-79 | The result is always truthy. It is the `promptMsg` override when that is truthy, else `"Please enter (" + help + "):"`, with a null help rendering as empty. |
| `OptionDefinitions.FalsyOverrideFallsBack` | src/Dlin/Getopt/OptionDefinition.php:59-79 | For all three messages, a falsy override (`""`, `"0"`, `false`, `0`, null) gives the same message as having no override. |
| `OptionDefinitions.RequiredMsgNamesArg` | src/Dlin/Getopt/OptionDefinition.php:60 | Stripping the fixed 8-character prefix and 13-character suffix from the default required message gives back the rendered `arg`. |
| `OptionDefinitions.PromptMessageNamesHelp` | src/Dlin/Getopt/OptionDefinition.php:78 | Stripping the fixed text from the default prompt gives back the rendered `help`. |
| `OptionDefinitions.PatternMsgNamesArgAndPattern` | src/Dlin/Getopt/OptionDefinition.php:68 | The default pattern message is `Option -`, the rendered arg, ` must match pattern: `, the rendered pattern and a newline. Each part can be recovered by position, and the length is the two rendered lengths plus 30. |
| `OptionDefinitions.MessageTestDefinition` | tests/Dlin/Getopt/Tests/OptionDefnitionTest.php:23-26 | Constructing from the test's first configuration (arg `test`, pattern `/pattern/`, help `test parameter`) succeeds. It keeps those three values and has no message overrides. |
| `OptionDefinitions.RequiredMsgOfMessageTest` | tests/Dlin/Getopt/Tests/OptionDefnitionTest.php:30 | Built from the test's first configuration, the definition's required message is `Option -test is required.`, as that test line expects. |
| `OptionDefinitions.PatternMsgOfMessageTest` | tests/Dlin/Getopt/Tests/OptionDefnitionTest.php:28 | Built from the test's first configuration, the definition's pattern message is `Option -test must match pattern: /pattern/` followed by a newline. That differs from the text this test line expects. |
| `OptionDefinitions.PromptMessageOfMessageTest` | tests/Dlin/Getopt/Tests/OptionDefnitionTest.php:32 | Built from the test's first configuration, the definition's prompt is `Please enter (test parameter):`, not the text this test line expects. |
| `Getopt.LookupAll` | src/Dlin/Getopt/Getopt.php:45-46 | The `array_map` over the keys yields one value per key, in order. Each is the configuration's value under that key, or null. |
| `Getopt.RecordOf` | src/Dlin/Getopt/Getopt.php:44-47 | The record `setOptions` stores has arg, alias, required, default and help equal to the configuration's values under those keys, or null. |
| `Getopt.RecordOfIgnoresOtherKeys` | src/Dlin/Getopt/Getopt.php:45-46 | Adding or removing any key other than the five, such as `pattern` or `prompt`, leaves the stored record unchanged. |
| `Getopt.ReplayKeepsLast` | src/Dlin/Getopt/Getopt.php:36-38 | Calling `setOptions` on each configuration in turn leaves the record of the last one. With no configurations it leaves the starting state. |
| `Getopt.NoValidationUnlikeDefinition` | src/Dlin/Getopt/Getopt.php:44-59 | A configuration without `arg` is still stored, with a null arg. The same configuration makes `OptionDefinition`'s constructor throw. |
| `Getopt.Getopt.constructor` | src/Dlin/Getopt/Getopt.php:34-40 | After construction the field is the replay of all configurations. For an empty list it is unset (null), otherwise the record of the last configuration. |
| `Getopt.Getopt.SetOptions` | src/Dlin/Getopt/Getopt.php:44-48 | The field becomes the five-key projection of the configuration, with no check on its contents. |
| `Getopt.Getopt.Option` | src/Dlin/Getopt/Getopt.php:50-59 | The whole field is replaced by the record of exactly the five arguments. Nothing of the previous value remains. |
| `Getopt.OptionTwice` | src/Dlin/Getopt/Getopt.php:58 | After two calls to `option`, only the second record remains. |

## Left out

- Floating-point numbers, arrays and objects as configuration values: only null, strings, booleans and integers are modelled.
- The notice PHP raises when `__get` is asked for a name the definition does not keep. The model returns null, as PHP does after the notice.
- `OptionException` (src/Dlin/Getopt/OptionException.php): it holds no logic. The constructor's failure is the `Failure` value of `Result`, carrying the exception's message.
- Argument tokenisation, `parse`, the validate-and-prompt repair loop, help and usage rendering, alias lookup and the other methods the Getopt tests call (`setOption`, `clearOptions`, `getUsage`, `setUsage`, `getHelpMessage`, `getParsedOptions`): `Getopt.php` contains none of them. Its constructor takes only a list of configurations.
- Regular-expression matching: `pattern` is an opaque stored value.
- The demo drivers under tests/ (console output, randomness).
- The `Getopt` constructor's PHP `foreach` over an associative array is modelled as a sequence of its values in iteration order. The keys of the outer array are not used by the source.
