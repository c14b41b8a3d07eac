/** What every transformer of a flow shares: its option dictionary, the input token it is
    working on, its queue of output tokens, and the storage handler of the flow it runs in.
    The concrete actors hold a `Transformer` as `base`, in place of inheriting from it.
    The calls the actors make into the host language, the toolkit and the file system are
    collected in `Host` and `FileSystem`. */
module FlowBase {
  import opened Wrappers
  import opened Numbers
  import opened Values
  import opened Options
  import Strings

  /** What one lifecycle step reports: success (the host's `None`), an error message
      returned by the step, or an exception the step raises (named, for the reader). */
  datatype Status = Ok | Error(message: string) | Raise(exception: string)

  datatype Result<T> = Success(value: T) | Failure(status: Status)

  /** The message of every storage actor that finds no storage handler attached. */
  const NoStorageHandler: string := "No storage handler available!"

  /** The external behaviour the actors call into, as given functions:
      - eval: the host's `eval(text)`, None when it raises;
      - render: `str(v)` of an object (a dataset, a model, any non-scalar);
      - classname: `utils.get_classname(v)`, the fully qualified class name;
      - typeName: `v.__class__.__name__`, the short name of the host-side type;
      - loaderForFile: `converters.loader_for_file(fname)`, None when no loader fits;
      - load: `loader.load_file(fname)`, the dataset in the file, None when it raises;
      - regexMatch: `re.compile(pattern).match(fname)` is a match, None when the pattern
        does not compile;
      - readAll: `serialization.read_all(fname)`, the objects in the file, None when it raises;
      - applyFilter: `filter.filter(data)`;
      - summary, matrix: `Evaluation.summary(title, complexity)` and `Evaluation.matrix(title)`. */
  datatype Host = Host(
    eval: string -> Option<Value>,
    render: Value -> string,
    classname: Value -> string,
    typeName: Value -> string,
    loaderForFile: string -> Option<Loader>,
    load: (Loader, string) -> Option<Dataset>,
    regexMatch: (string, string) -> Option<bool>,
    readAll: string -> Option<seq<Value>>,
    applyFilter: (FilterSetup, Dataset) -> Dataset,
    summary: (Evaluation, Value, bool) -> string,
    matrix: (Evaluation, Value) -> string)
  {
    /** The host's `str(v)`: scalars are written out, objects are rendered by `render`. */
    function Str(v: Value): string
    {
      match v
      case NoneV => "None"
      case BoolV(b) => if b then "True" else "False"
      case IntV(i) => IntToString(i)
      case StrV(s) => s
      case _ => render(v)
    }

    /** `str(expression).replace("{X}", str(value))`: the text the expression actors evaluate. */
    function Substitute(expression: Value, value: Value): string
    {
      Strings.Replace(Str(expression), Strings.Placeholder, Str(value))
    }

    /** `eval(v)`: only a string can be evaluated; anything else raises a TypeError. */
    function Evaluate(v: Value): Option<Value>
    {
      if v.StrV? then eval(v.s) else None
    }
  }

  /** The storage of one flow run, shared by reference by all its actors. Python dictionary
      keys are arbitrary values, so the keys here are values too. */
  class StorageHandler {
    var storage: map<Value, Value>

    constructor (initial: map<Value, Value>)
      ensures storage == initial
    {
      storage := initial;
    }
  }

  /** The part of the file system the actors look at: regular files and other entries
      (directories) by path. */
  class FileSystem {
    var files: set<string>
    var directories: set<string>

    constructor (files: set<string>, directories: set<string>)
      ensures this.files == files && this.directories == directories
    {
      this.files := files;
      this.directories := directories;
    }

    /** `os.path.exists(path)`. */
    predicate Exists(path: string)
      reads this
    {
      path in files || path in directories
    }

    /** `os.path.isfile(path)`. */
    predicate IsFile(path: string)
      reads this
    {
      path in files
    }

    /** `os.remove(path)`: removes a regular file; on anything else it raises (ok is false). */
    method Remove(path: string) returns (ok: bool)
      modifies this`files
      ensures ok == (path in old(files))
      ensures files == old(files) - {path}
    {
      ok := path in files;
      files := files - {path};
    }
  }

  /** The state a transformer shares with every other: options, input, output queue. */
  class Transformer {
    const fullName: string
    var options: OptionMap
    var input: Option<Token>
    var output: seq<Token>
    const storagehandler: StorageHandler?

    constructor (fullName: string, options: OptionMap, storagehandler: StorageHandler?)
      ensures this.fullName == fullName && this.options == options
      ensures this.storagehandler == storagehandler
      ensures input == None && output == []
    {
      this.fullName := fullName;
      this.options := options;
      this.storagehandler := storagehandler;
      input := None;
      output := [];
    }

    /** The runner hands the actor its next token (after `check_input` accepted it). */
    method SetInput(token: Token)
      modifies this`input
      ensures input == Some(token)
    {
      input := Some(token);
    }

    /** `post_execute`: the result of the inherited step is passed on, and the consumed input
        is dropped only when that result is success, so a failed step keeps its input. */
    method PostExecute(inherited: Status) returns (result: Status)
      modifies this`input
      ensures result == inherited
      ensures input == (if inherited == Ok then None else old(input))
    {
      result := inherited;
      if result == Ok {
        input := None;
      }
    }

    /** `has_output`: a token is waiting in the queue. */
    predicate HasOutput()
      reads this
    {
      output != []
    }

    /** `output`: the oldest queued token, removed from the queue; None when the queue is empty. */
    method Output() returns (token: Option<Token>)
      modifies this`output
      ensures old(output) == [] ==> token == None && output == []
      ensures old(output) != [] ==> token == Some(old(output)[0]) && output == old(output)[1..]
    {
      if output == [] {
        token := None;
      } else {
        token := Some(output[0]);
        output := output[1..];
      }
    }
  }
}
