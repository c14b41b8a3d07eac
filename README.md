# Transformer actors of the python-weka-wrapper flow engine, in Dafny

This project models the transformer actors of the flow engine in
`python/weka/flow/transformer.py`. A flow is a chain of actors that pass tokens along. A
transformer consumes one input token and, in its `do_execute` step, queues zero or more
output tokens. Each transformer has three things:

- an option dictionary, completed by its `fix_options` with the defaults it declares;
- a slot for the current input token, which `post_execute` clears after a successful step;
- a queue of output tokens that the runner drains with `has_output` / `output`.

Every step ends in one of three ways:

- it succeeds (the host's `None`);
- it returns an error message;
- it raises an exception.

The model keeps these apart as `FlowBase.Status = Ok | Error(message) | Raise(exception)`.

The model follows the source's form. Every actor is a class with fields the methods update:

- the shared part of a transformer is `FlowBase.Transformer`, held by each actor as `base`
  in place of inheritance;
- the flow's storage is a `StorageHandler` object shared by reference;
- `LoadDataset` keeps its loader and record iterator as fields;
- `Filter` keeps its prepared filter and header as fields;
- the file system is a `FileSystem` object whose set of files `DeleteFile` changes.

Each `DoExecute` states its whole effect in its `ensures`: the status it returns, the new
output queue and the new storage or actor fields, for every branch of the source.

The data an actor looks at is modelled as values (`Values`): datasets with a header and
records, models of three kinds, filter setups, loaders, containers and evaluations. What
the actors call outside themselves is given as the functions of `FlowBase.Host`:

- the host's `eval` and `str` of objects;
- loading a file and reading serialized objects;
- compiling and matching a regular expression;
- applying a filter;
- the text of an evaluation summary.

Proved about the actors:

- every `fix_options` adds exactly its declared defaults, never overwrites a supplied
  value, and is idempotent (`Options`);
- the `{X}` substitution is Python's `str.replace`, proved equal to `v.join(s.split(p))`
  (`Strings`);
- `int(str(i)) == i` (`Numbers`);
- the ClassSelector mapping of `"first"`, `"last"` and 1-based numbers;
- the Filter refit rule;
- copy-on-use: a built model or prepared filter depends only on the configuration and the
  new data, never on an earlier build;
- each `check_input` accepts exactly the payloads its `do_execute` handles;
- the ModelReader round trip between what is written and what is read;
- small end-to-end flows (`Scenarios`): a counter going 1, 2, 3; an incremental load
  yielding three records and then nothing; a prepared filter that is reused only for the
  same schema.

Files: `wrappers.dfy`, `numbers.dfy`, `strings.dfy`, `values.dfy`, `options.dfy`, `flow_base.dfy`,
`storage_actors.dfy`, `simple_actors.dfy`, `dataset_actors.dfy`, `model_actors.dfy`,
`scenarios.dfy`.

### Behaviour of `transformer.py` worth knowing

- `MathExpression` forwards whatever the host's `eval` returns for the substituted text.
  `eval` of integer text such as `1 + 4` yields an int. Nothing converts the result to a float.
- `LoadDataset.has_output` stays true after the last record has been produced. It becomes
  false only after one more `output()`, which returns no token and drops the iterator
  (`Scenarios.IncrementalLoad`).
- `UpdateStorageValue` reads the current value under `str(storage_name)` but writes the new
  value under `storage_name` itself. The two keys are the same only when the name is a
  string (`ReadKey` versus the raw option).
- `ClassSelector` changes the class index of the incoming dataset object in place and
  forwards that same object.
- `ClassSelector` has no `check_input`. Under a numeric index, a payload that is not a
  dataset but an object that takes new attributes (a container, a model wrapper) is
  forwarded unchanged (`Scenarios.ObjectThroughSelector`).
- `ClassSelector` reads its index with Python 2's `int()`, which allows white space between
  the sign and the digits: the index `- 2` selects the 0-based index -3.
- In `Filter`, a refit first stores the new header and only then copies the configured
  filter. When the copy raises, the new header stays stored while the old filter is kept.
- `ModelReader` accepts only a classifier or a clusterer as the first object. A serialized
  associator is an "Unhandled class" error. `CrossValidate` treats an associator the same
  way, while `Train` accepts all three kinds.
- `Train.check_input` has no test for a missing token, unlike the other `check_input`s. A
  missing token raises when its payload is looked up.

The helpers `Values.Truthy` (`bool`), `Values.ToInt` (`int`), `DeleteFile.ShouldDelete` (the
`.*` short cut before the regular-expression engine), `LoadDataset.ChosenLoader` (the custom
or the toolkit's loader) and `LoadDataset.LoadWith` (loading with it) are definitions; the
rows of the steps that use them state what they promise.

## Model

| member | source | states |
|---|---|---|
| FlowBase.Host.Substitute | python/weka/flow/transformer.py:525-526 | `str(expression).replace("{X}", str(value))`; `Strings.SubstituteOnce`, `UpdateStorageValue.DefaultExpressionText` and `MathExpression.AddOneText` state what it gives |
| FlowBase.Transformer.PostExecute | python/weka/flow/transformer.py:52-61 | the inherited status is returned unchanged; the input is cleared exactly when that status is success, so a failed step keeps its input |
| FlowBase.Transformer.Output | python/weka/flow/transformer.py:243-245 | the inherited `output`: the head of the queue is removed and returned; an empty queue yields no token and stays empty |
| FlowBase.FileSystem.Remove | python/weka/flow/transformer.py:972-973 | `os.remove`: succeeds exactly when the path is a regular file, and afterwards the path is no longer a file |
| Numbers.IntToString | python/weka/flow/transformer.py:1246 | `str(n)` of an int is non-empty, all digits after an optional leading minus that is present exactly for negative n |
| Numbers.ParseInt | python/weka/flow/transformer.py:673 | Python 2 `int(s)`: an accepted text, once stripped, starts with a sign or a digit, holds only digits and white space after that, ends in a digit, and is negative only after a minus |
| Numbers.DigitsOfNat | python/weka/flow/transformer.py:1246 | the digits `str` writes for a natural number have that number as their value |
| Numbers.ParseIntOfLiteral | python/weka/flow/transformer.py:673 | every text of white space, an optional sign, white space after the sign, digits and white space is read as the digits' value, negated after a minus |
| Numbers.ParseIntOnlyLiterals | python/weka/flow/transformer.py:673 | conversely, whatever `int()` accepts is such a literal, read as its signed digits: so `1 2` or a bare sign raise |
| Numbers.ParseIntOfIntToString | python/weka/flow/transformer.py:673 | `int(str(i)) == i` for every integer i |
| Numbers.IntToStringStartsWithSignOrDigit | python/weka/flow/transformer.py:668-673 | the text of an integer starts with a minus or a digit, so it is never the word `first` or `last` |
| Strings.Replace | python/weka/flow/transformer.py:594 | Python's `str.replace`, scanning left to right; its properties are `ReplaceIsJoinOfSplit`, `ReplaceBySelf`, `ReplaceSkipsPrefix` and `ReplaceAtFront` |
| Strings.ReplaceIsJoinOfSplit | python/weka/flow/transformer.py:594 | the left-to-right `str.replace` equals `v.join(s.split(p))` |
| Strings.SplitJoinRoundTrip | python/weka/flow/transformer.py:594 | `p.join(s.split(p)) == s`: the pieces and the occurrences between them make up the string |
| Strings.SplitPiecesAvoidPattern | python/weka/flow/transformer.py:594 | no piece of `s.split(p)` contains `p`, so every occurrence of the placeholder is replaced |
| Strings.ReplaceBySelf | python/weka/flow/transformer.py:594 | replacing a pattern by itself leaves the string unchanged |
| Strings.ReplaceSkipsPrefix | python/weka/flow/transformer.py:594 | a prefix holding no first character of the pattern is copied unchanged by `replace` |
| Strings.ReplaceAtFront | python/weka/flow/transformer.py:594 | an occurrence at the front is replaced and the scan resumes after it |
| Strings.SubstituteOnce | python/weka/flow/transformer.py:525-526 | a template with exactly one `{X}` between a prefix and a suffix without `{` becomes prefix + value + suffix, whatever the value holds |
| Values.TemplateKeepsSchema | python/weka/flow/transformer.py:903 | the cached template has the schema of the incoming data and no records; the template of a template is itself |
| Values.BuiltIsFreshCopy | python/weka/flow/transformer.py:784-794 | copy-on-use: a rebuild forgets the earlier build, and two builds of one configuration agree exactly when their data does |
| Values.PreparedIsFreshCopy | python/weka/flow/transformer.py:904-905 | a new preparation forgets the earlier one, and two preparations of one filter agree exactly when the templates of their data agree |
| Values.TruthyIsNonZero | python/weka/flow/transformer.py:664 | `bool(v)` of a number or a boolean is `int(v) != 0` |
| Values.ToIntOfText | python/weka/flow/transformer.py:1104-1105 | `int(v)` of an option holding the text of an integer i is i |
| Options.ApplyDefaults | python/weka/flow/transformer.py:296-312 | the defaulting every `fix_options` performs, key by key in declaration order; its properties are `ApplyDefaultsIsDefaulted`, `ApplyDefaultsWhenComplete` and `ApplyDefaultsIdempotent` |
| Options.ApplyDefaultsIsDefaulted | python/weka/flow/transformer.py:640-654 | defaulting adds exactly the declared keys, keeps every supplied value, and gives each added key its first declared default |
| Options.ApplyDefaultsWhenComplete | python/weka/flow/transformer.py:640-654 | defaulting options that already hold every declared key changes nothing |
| Options.ApplyDefaultsIdempotent | python/weka/flow/transformer.py:501-515 | running `fix_options` twice gives the same options as running it once |
| Options.DeclaredEntry | python/weka/flow/transformer.py:1018-1052 | a declaration that is the first naming its option is the one that gives that option its default |
| Options.FixWith | python/weka/flow/transformer.py:640-654 | the shape shared by every `fix_options`: defaulted as above, and idempotent |
| StorageActors.SetStorageValue.FixOptions | python/weka/flow/transformer.py:296-312 | `storage_name` defaults to `unknown`; a supplied value is kept; idempotent |
| StorageActors.SetStorageValue.DoExecute | python/weka/flow/transformer.py:320-324 | without a handler: the no-handler error and nothing queued; otherwise the payload is stored under the name and the input token is queued |
| StorageActors.DeleteStorageValue.FixOptions | python/weka/flow/transformer.py:359-375 | `storage_name` defaults to `unknown`; a supplied value is kept; idempotent |
| StorageActors.DeleteStorageValue.DoExecute | python/weka/flow/transformer.py:383-387 | without a handler: the no-handler error; otherwise the name is removed (an absent name is no error) and the input token is queued |
| StorageActors.InitStorageValue.FixOptions | python/weka/flow/transformer.py:422-444 | `storage_name` defaults to `unknown` and `value` to the text `1`; supplied values are kept; idempotent |
| StorageActors.InitStorageValue.DoExecute | python/weka/flow/transformer.py:452-456 | without a handler: the no-handler error; a failing `eval` raises and stores nothing; otherwise the evaluated value is stored and the input queued |
| StorageActors.UpdateStorageValue.FixOptions | python/weka/flow/transformer.py:493-515 | `storage_name` defaults to `unknown` and `expression` to `int({X} + 1)`; supplied values are kept; idempotent |
| StorageActors.UpdateStorageValue.ReadKey | python/weka/flow/transformer.py:525-526 | the current value is read under a string key, which is the configured name itself whenever that name is a string |
| StorageActors.UpdateStorageValue.DoExecute | python/weka/flow/transformer.py:523-529 | without a handler: the no-handler error; a missing entry (KeyError) or a failing `eval` raises and changes nothing; otherwise the evaluation of the expression with `{X}` replaced by the current value is written under the name |
| StorageActors.UpdateStorageValue.DefaultExpressionText | python/weka/flow/transformer.py:511-526 | with the default expression and a stored integer n, the evaluated text is `int(n + 1)` |
| SimpleActors.PassThrough.DoExecute | python/weka/flow/transformer.py:87-93 | the input token is queued unchanged and the step succeeds |
| SimpleActors.MathExpression.FixOptions | python/weka/flow/transformer.py:569-585 | `expression` defaults to `{X}`; a supplied value is kept; idempotent |
| SimpleActors.MathExpression.DoExecute | python/weka/flow/transformer.py:593-596 | the evaluation of the expression with `{X}` replaced by the payload's text is queued in a new token; a failing `eval` raises and queues nothing |
| SimpleActors.MathExpression.DefaultExpressionIsPayload | python/weka/flow/transformer.py:581-594 | the default expression evaluates exactly the text of the payload |
| SimpleActors.MathExpression.AddOneText | python/weka/flow/transformer.py:593-594 | `1 + {X}` with the integer payload n evaluates the text `1 + n` |
| SimpleActors.DeleteFile.FixOptions | python/weka/flow/transformer.py:943-959 | `regexp` defaults to `.*`; a supplied value is kept; idempotent |
| SimpleActors.DeleteFile.DefaultPatternDeletesAll | python/weka/flow/transformer.py:968-972 | with the default options every file is to be deleted, whatever the regular-expression engine would say |
| SimpleActors.DeleteFile.DoExecute | python/weka/flow/transformer.py:967-975 | a file that is to be deleted is removed and the input queued; one that is not matched is kept and the input queued; a bad pattern or removing a non-file raises and changes nothing |
| DatasetActors.LoadDataset.FixOptions | python/weka/flow/transformer.py:132-158 | `incremental` and `use_custom_loader` default to False and `custom_loader` to the ARFF loader; supplied values are kept; idempotent |
| DatasetActors.LoadDataset.AcceptsExactlyFileNames | python/weka/flow/transformer.py:188-198 | `check_input` accepts exactly a token with a string payload, and the path `do_execute` reads with `str` is that string |
| DatasetActors.LoadDataset.DoExecute | python/weka/flow/transformer.py:206-220 | a missing path and a non-file are errors with those messages that change nothing; otherwise the chosen loader is kept; batch mode queues the dataset, incremental mode holds an iterator over its records; a failed load raises |
| DatasetActors.LoadDataset.HasOutput | python/weka/flow/transformer.py:222-228 | output is pending while a token is queued or an iterator is held; `StopExecution` and `Wrapup` state that it ends with the iterator |
| DatasetActors.LoadDataset.Output | python/weka/flow/transformer.py:236-245 | with records left the next one is produced in a new token; an exhausted iterator is dropped and yields no token; without an iterator the queue's head |
| DatasetActors.LoadDataset.StopExecution | python/weka/flow/transformer.py:247-253 | loader and iterator are dropped (so a second call changes nothing), and only tokens already queued remain pending |
| DatasetActors.LoadDataset.Wrapup | python/weka/flow/transformer.py:255-261 | loader and iterator are dropped (so a second call changes nothing), and only tokens already queued remain pending |
| DatasetActors.ClassSelector.FixOptions | python/weka/flow/transformer.py:632-654 | `index` defaults to `last` and `unset` to False; supplied values are kept; idempotent |
| DatasetActors.ClassSelector.Choose | python/weka/flow/transformer.py:663-673 | the class is cleared exactly when `unset` holds; `first` gives 0 and `last` the number of attributes minus one; the index is not a number exactly when it is neither word and `int()` rejects it |
| DatasetActors.ClassSelector.Apply | python/weka/flow/transformer.py:665-673 | only the class index changes: to -1 when unset, to the chosen index when it is below the number of attributes, and otherwise the step fails |
| DatasetActors.ClassSelector.UnsetWins | python/weka/flow/transformer.py:665-666 | a truthy `unset` clears the class whatever the index says |
| DatasetActors.ClassSelector.NumberSelects | python/weka/flow/transformer.py:672-673 | the 1-based number k selects the 0-based index k - 1 |
| DatasetActors.ClassSelector.LiteralSelects | python/weka/flow/transformer.py:672-673 | any index text `int()` accepts, white space and sign included, selects the 0-based index one below its value |
| DatasetActors.ClassSelector.FirstIsOne | python/weka/flow/transformer.py:668-669 | `first` selects the same column as the number 1 |
| DatasetActors.ClassSelector.LastIsCount | python/weka/flow/transformer.py:670-671 | `last` selects the same column as the number of attributes |
| DatasetActors.ClassSelector.DoExecute | python/weka/flow/transformer.py:661-675 | a dataset is forwarded with its class index set as chosen, and a non-numeric or out-of-range index raises; any other payload, which is not type-checked, is forwarded unchanged exactly when the index is numeric and the object takes the assignment, and raises otherwise |
| DatasetActors.Filter.FixOptions | python/weka/flow/transformer.py:838-852 | `filter` defaults to AllFilter; a supplied value is kept; idempotent |
| DatasetActors.Filter.AcceptsExactlyDatasets | python/weka/flow/transformer.py:882-892 | `check_input` accepts exactly a token carrying a dataset, so an accepted token never takes the raising branch of `do_execute` |
| DatasetActors.Filter.NeedsRefit | python/weka/flow/transformer.py:902 | the refit rule, no prepared filter or a header of another schema; `RefitOnlyOnSchemaChange` and `DoExecute` state its use |
| DatasetActors.Filter.RefitOnlyOnSchemaChange | python/weka/flow/transformer.py:902 | after preparing for a dataset, another dataset needs a refit exactly when its header differs |
| DatasetActors.Filter.DoExecute | python/weka/flow/transformer.py:900-908 | a refit happens exactly when there is no prepared filter or the header differs, and then caches the new header and prepares a copy of the configured filter; exactly one filtered token is queued; the configured option never changes |
| ModelActors.Train.FixOptions | python/weka/flow/transformer.py:713-729 | `setup` defaults to an untrained ZeroR; a supplied value is kept; idempotent |
| ModelActors.Train.AcceptsExactlyDatasets | python/weka/flow/transformer.py:765-775 | `check_input` accepts exactly a token carrying a dataset, so an accepted token never takes the raising branch of `do_execute` |
| ModelActors.Train.DoExecute | python/weka/flow/transformer.py:784-799 | a model of any kind is copied and built on the dataset, and the container with the dataset's header is queued; anything else is an "Unhandled class" error that queues nothing |
| ModelActors.CrossValidate.FixOptions | python/weka/flow/transformer.py:1012-1052 | `setup` ZeroR, `folds` 10, `seed` 1, `discard_predictions` False, `output` None; supplied values are kept; idempotent |
| ModelActors.CrossValidate.DoExecute | python/weka/flow/transformer.py:1095-1119 | a classifier yields its evaluation over the configured folds, seed, discard flag and output; a clusterer yields its log-likelihood; non-integer folds or seed or a non-dataset raise; anything else is an "Unhandled class" error |
| ModelActors.EvaluationSummary.FixOptions | python/weka/flow/transformer.py:1156-1184 | `title` None, `complexity` and `matrix` False; supplied values are kept; idempotent |
| ModelActors.EvaluationSummary.DoExecute | python/weka/flow/transformer.py:1192-1197 | the summary under the title is queued, followed by a line break and the matrix when `matrix` is truthy; a non-evaluation raises |
| ModelActors.ModelReader.CountError | python/weka/flow/transformer.py:1246 | the message for a wrong object count; `Scenarios.ThreeObjectsText` writes it out for three objects |
| ModelActors.ModelReader.ReadContainer | python/weka/flow/transformer.py:1231-1246 | success exactly for one or two objects led by a classifier or clusterer (and a dataset second); the count error names the count and the file; a first object of another kind is "Unhandled class" |
| ModelActors.ModelReader.Serialized | python/weka/flow/transformer.py:1233-1242 | a container is written as its model, then its header when present |
| ModelActors.ModelReader.ReadSerialized | python/weka/flow/transformer.py:1231-1242 | reading what a classifier or clusterer container writes gives the container back |
| ModelActors.ModelReader.SerializedRead | python/weka/flow/transformer.py:1231-1242 | whatever is read successfully is exactly what its container would write |
| ModelActors.ModelReader.DoExecute | python/weka/flow/transformer.py:1229-1248 | a non-string name or an unreadable file raises; otherwise the container read is queued, or its error is returned with nothing queued |
| Scenarios.Increment | python/weka/flow/transformer.py:523-529 | one default update of a counter holding n leaves n + 1 |
| Scenarios.CounterCountsUp | python/weka/flow/transformer.py:511-528 | two default updates of a counter holding n leave n + 2 (1, 2, 3 for n = 1) |
| Scenarios.StartIncremental | python/weka/flow/transformer.py:206-219 | an incremental load holds an iterator over the file's records and queues nothing |
| Scenarios.IncrementalLoad | python/weka/flow/transformer.py:222-245 | three records come out in order while output is pending, then one call yields nothing and output is no longer pending |
| Scenarios.FilterReuse | python/weka/flow/transformer.py:902-906 | the copy prepared for one dataset is reused for a dataset with the same header (two refits over three steps) and prepared anew for another header |
| Scenarios.TrainTwice | python/weka/flow/transformer.py:784-798 | each container holds ZeroR trained on its own dataset, and the configured ZeroR stays untrained |
| Scenarios.ThreeObjectsText | python/weka/flow/transformer.py:1246 | the count error for three objects, written out |
| Scenarios.ReadThreeObjects | python/weka/flow/transformer.py:1245-1246 | a file of three objects gives the count error and queues nothing |
| Scenarios.SelectClass | python/weka/flow/transformer.py:662-674 | with default options the class becomes the last of four attributes; with `unset` there is no class |
| Scenarios.AddOne | python/weka/flow/transformer.py:593-595 | `1 + {X}` on the integer 4 queues what `eval("1 + 4")` gives |
| Scenarios.DeleteByDefault | python/weka/flow/transformer.py:967-974 | with the default pattern the incoming file is deleted and its token forwarded |
| Scenarios.NoStorage | python/weka/flow/transformer.py:320-321 | all four storage actors report the missing handler when the flow has no storage |
| Scenarios.CheckedFilter | python/weka/flow/transformer.py:882-908 | a token `check_input` accepts is filtered by a prepared copy of the configured filter and the result forwarded |
| Scenarios.CheckedTrain | python/weka/flow/transformer.py:765-799 | a token `check_input` accepts is trained on by a copy of the configured model and forwarded in a container |
| Scenarios.CheckedLoadOfMissingFile | python/weka/flow/transformer.py:188-209 | an accepted file name that names nothing gives the missing-file error for that very path and queues nothing |
| Scenarios.StopMidStream | python/weka/flow/transformer.py:236-253 | after one record, `stop_execution` leaves no output pending and `output` produces nothing more |
| Scenarios.ObjectThroughSelector | python/weka/flow/transformer.py:661-675 | a model container under the index `2` is forwarded unchanged with success; under `last` it raises |

## Left out

- The base classes `Actor`, `InputConsumer` and `OutputProducer` (`python/weka/flow/base.py`) are not part of this model. What the transformers use of them is assumed:
  - `output()` pops the oldest queued token, or gives None when the queue is empty;
  - `has_output()` means the queue is non-empty;
  - the inherited `fix_options` adds nothing;
  - the inherited `post_execute` result is a parameter;
  - `resolve_option(k)` is `options[k]`;
  - the runner hands the input over with `SetInput` after `check_input`.
- Variable substitution inside `resolve_option` (flow variables written as `@{name}`) is not modelled. Options are used as they are stored.
- The host's `eval`, `str` of objects, `utils.get_classname` and `__class__.__name__` are given functions of `Host`, because they belong to the Python interpreter.
- Loading, reading serialized objects, `loader_for_file` and applying a filter are given functions, because they run in the machine-learning toolkit behind the Java bridge.
- The regular-expression engine is a given function. Only the `.*` short cut is modelled, because the engine is the host's.
- Building, filtering and evaluation themselves are left out. A model or filter setup only records what it was built or prepared on, and an evaluation only records its arguments. All of this runs inside the toolkit.
- `LoadDataset` in incremental mode is modelled as iterating over the records the loader reads. Streaming from the file is not modelled.
- `javabridge.is_instance_of` and the wrapper classes' type checks are replaced by the tag of a value, because the toolkit's class hierarchy is outside the source.
- `quickinfo`, `description`, `to_options`, `from_options` and the `help` texts are left out, because they only describe or serialize options.
- `DatasetActors.ClassSelector.DoExecute`: changes of the dataset object in place are modelled as forwarding the changed value. Aliasing between the input and the output token is not captured.
- `ModelActors.CrossValidate.DoExecute`: the evaluation's statistics and the log-likelihood are left abstract. The clusterer's floating-point result is a value named by its arguments.
- `FlowBase.StorageHandler`: the storage keys are values compared as values. A Python dictionary treats `1`, `1.0` and `True` as one key; the model keeps `IntV(1)` and `BoolV(true)` apart.
- `ModelActors.Train.DoExecute`: the success branch assumes the toolkit's `build_classifier`, `build_clusterer` or `build_associations` returns; an exception the toolkit raises while building (ZeroR on a dataset without a class, say) is not modelled.
- `ModelActors.CrossValidate.DoExecute`: the success branches assume the toolkit's cross-validation returns; its exceptions are not modelled.
- `DatasetActors.Filter.DoExecute`: the success branch assumes `inputformat` and `filter` return; their exceptions are not modelled.
- `ModelActors.EvaluationSummary.DoExecute`: the success branch assumes `summary` and `matrix` return; their exceptions are not modelled.
- `Scenarios.TrainTwice`, `Scenarios.CheckedTrain`, `Scenarios.CheckedFilter` and `Scenarios.FilterReuse` rest on the same assumption: the toolkit's build and filter calls return.
- `DatasetActors.ClassSelector.DoExecute`: which objects take an assignment of `class_index` (`TakesAttributes`) follows the wrapper classes, which are not part of this model.
- The exceptions a step raises are named only for the reader. The model states that a step raises, not the exact exception class.
