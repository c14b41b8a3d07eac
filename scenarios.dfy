/** Small flows built from the actors, each run on fresh objects: what a user of the actors
    observes over several steps. The host behaviour a flow relies on (what `eval` returns for
    a given text, what a file holds) is stated as a precondition. */
module Scenarios {
  import opened Wrappers
  import opened Numbers
  import opened Values
  import opened FlowBase
  import opened StorageActors
  import opened SimpleActors
  import opened DatasetActors
  import opened ModelActors

  /** One update of a counter holding n with the default expression. */
  method Increment(update: UpdateStorageValue, host: Host, n: int)
    requires update.Valid() && update.base.input.Some? && update.base.storagehandler != null
    requires update.base.options["storage_name"] == StrV("counter")
    requires update.base.options["expression"] == StrV("int({X} + 1)")
    requires update.base.storagehandler.storage == map[StrV("counter") := IntV(n)]
    requires host.eval("int(" + IntToString(n) + " + 1)") == Some(IntV(n + 1))
    modifies update.base`output, update.base.storagehandler
    ensures update.Valid() && update.base.input == old(update.base.input)
    ensures update.base.storagehandler.storage == map[StrV("counter") := IntV(n + 1)]
  {
    assert UpdateStorageValue.ReadKey(host, StrV("counter")) == StrV("counter");
    UpdateStorageValue.DefaultExpressionText(host, n);
    var status := update.DoExecute(host);
  }

  /** A counter holding n, updated twice with the default expression `int({X} + 1)`,
      holds n + 2 (for n = 1: 1, 2, 3). */
  method CounterCountsUp(host: Host, n: int) returns (final: map<Value, Value>)
    requires host.eval("int(" + IntToString(n) + " + 1)") == Some(IntV(n + 1))
    requires host.eval("int(" + IntToString(n + 1) + " + 1)") == Some(IntV(n + 2))
    ensures final == map[StrV("counter") := IntV(n + 2)]
  {
    var handler := new StorageHandler(map[StrV("counter") := IntV(n)]);
    var update := new UpdateStorageValue("update", map["storage_name" := StrV("counter")], handler);
    update.base.SetInput(Token(NoneV));
    Increment(update, host, n);
    Increment(update, host, n + 1);
    final := handler.storage;
  }

  /** An incremental load of a file the host can read: the actor then holds an iterator
      over the file's records and has queued nothing. */
  method StartIncremental(host: Host, fname: string, data: Dataset) returns (load: LoadDataset)
    requires host.loaderForFile(fname).Some?
    requires host.load(host.loaderForFile(fname).value, fname) == Some(data)
    ensures fresh(load) && fresh(load.base)
    ensures load.records == Some(data.rows) && load.base.output == []
  {
    var fs := new FileSystem({fname}, {});
    load := new LoadDataset("load", map["incremental" := BoolV(true)]);
    load.base.SetInput(Token(StrV(fname)));
    var status := load.DoExecute(host, fs);
  }

  /** Incremental loading of a three-record file: three record tokens, then, because the
      exhausted iterator still counts as pending output, one more call that yields nothing. */
  method IncrementalLoad(host: Host, fname: string, data: Dataset) returns (tokens: seq<Option<Token>>, pending: seq<bool>, more: bool)
    requires |data.rows| == 3
    requires host.loaderForFile(fname).Some?
    requires host.load(host.loaderForFile(fname).value, fname) == Some(data)
    ensures tokens == [Some(Token(InstanceV(data.rows[0]))), Some(Token(InstanceV(data.rows[1]))),
                       Some(Token(InstanceV(data.rows[2]))), None]
    ensures pending == [true, true, true, true] && !more
  {
    var load := StartIncremental(host, fname, data);
    var rows := data.rows;
    assert rows[1..][0] == rows[1] && rows[1..][1..] == rows[2..];
    assert rows[2..][0] == rows[2] && rows[2..][1..] == [];
    var p0 := load.HasOutput();
    var t0 := load.Output();
    var p1 := load.HasOutput();
    var t1 := load.Output();
    var p2 := load.HasOutput();
    var t2 := load.Output();
    var p3 := load.HasOutput();
    var t3 := load.Output();
    tokens := [t0, t1, t2, t3];
    pending := [p0, p1, p2, p3];
    more := load.HasOutput();
  }

  /** A filter prepared for one dataset is reused for a dataset of the same schema and
      prepared anew for a dataset of another schema. */
  method FilterReuse(host: Host, f: FilterSetup, d1: Dataset, d2: Dataset, d3: Dataset)
    returns (first: Option<FilterSetup>, second: Option<FilterSetup>, third: Option<FilterSetup>, ghost refits: nat)
    requires EqualHeaders(d1, d2) && !EqualHeaders(d2, d3)
    ensures first == Some(Prepared(f, d1)) && second == first && third == Some(Prepared(f, d3))
    ensures refits == 2
  {
    var actor := new Filter("filter", map["filter" := FilterV(f)]);
    actor.base.SetInput(Token(DataV(d1)));
    var status := actor.DoExecute(host);
    first := actor.filter;
    actor.base.SetInput(Token(DataV(d2)));
    status := actor.DoExecute(host);
    second := actor.filter;
    actor.base.SetInput(Token(DataV(d3)));
    status := actor.DoExecute(host);
    third := actor.filter;
    refits := actor.refits;
  }

  /** Training twice with the default setup: each container holds ZeroR trained on its own
      dataset, and the configured ZeroR stays untrained. */
  method TrainTwice(host: Host, d1: Dataset, d2: Dataset) returns (forwarded: seq<Token>, configured: Value)
    ensures forwarded == [Token(ContainerV(ModelContainer(Built(ZeroR, d1), Some(Template(d1))))),
                          Token(ContainerV(ModelContainer(Built(ZeroR, d2), Some(Template(d2)))))]
    ensures configured == ModelV(ZeroR) && ZeroR.trainedOn.None?
  {
    var train := new Train("train", map[]);
    train.base.SetInput(Token(DataV(d1)));
    var status := train.DoExecute(host);
    train.base.SetInput(Token(DataV(d2)));
    status := train.DoExecute(host);
    forwarded := train.base.output;
    configured := train.base.options["setup"];
  }

  /** The count error for three objects, written out. */
  lemma ThreeObjectsText(fname: string)
    ensures ModelReader.CountError(3, fname) == "Expected 1 or 2 objects, but got 3 instead reading: " + fname
  {
    assert IntToString(3) == "3" by { assert DigitChar(3) == '3'; }
  }

  /** Reading a file of three objects is an error naming the count and the file. */
  method ReadThreeObjects(host: Host, fname: string, objects: seq<Value>) returns (status: Status, forwarded: seq<Token>)
    requires |objects| == 3 && host.readAll(fname) == Some(objects)
    ensures status == Error("Expected 1 or 2 objects, but got 3 instead reading: " + fname)
    ensures forwarded == []
  {
    var reader := new ModelReader("reader", map[]);
    reader.base.SetInput(Token(StrV(fname)));
    status := reader.DoExecute(host);
    assert ModelReader.ReadContainer(host, objects, fname) == Failure(Error(ModelReader.CountError(3, fname)));
    ThreeObjectsText(fname);
    forwarded := reader.base.output;
  }

  /** With the default options the class becomes the last attribute; with `unset` there is
      no class, whatever the index says. */
  method SelectClass(host: Host, data: Dataset) returns (byDefault: Dataset, cleared: Dataset)
    requires |data.attributes| == 4
    ensures byDefault == data.(classIndex := 3)
    ensures cleared == data.(classIndex := -1)
  {
    var selector := new ClassSelector("select", map[]);
    selector.base.SetInput(Token(DataV(data)));
    var status := selector.DoExecute(host);
    byDefault := selector.base.output[0].payload.data;
    var unsetter := new ClassSelector("unset", map["unset" := BoolV(true), "index" := StrV("2")]);
    unsetter.base.SetInput(Token(DataV(data)));
    status := unsetter.DoExecute(host);
    cleared := unsetter.base.output[0].payload.data;
  }

  /** `1 + {X}` applied to the integer 4 evaluates the text `1 + 4`. */
  method AddOne(host: Host) returns (forwarded: seq<Token>)
    requires host.eval("1 + 4") == Some(IntV(5))
    ensures forwarded == [Token(IntV(5))]
  {
    var math := new MathExpression("math", map["expression" := StrV("1 + {X}")]);
    math.base.SetInput(Token(IntV(4)));
    MathExpression.AddOneText(host, 4);
    assert IntToString(4) == "4" by { assert DigitChar(4) == '4'; }
    assert "1 + " + IntToString(4) == "1 + 4";
    var status := math.DoExecute(host);
    forwarded := math.base.output;
  }

  /** With the default pattern every incoming file is deleted and forwarded. */
  method DeleteByDefault(host: Host, fname: string, others: set<string>) returns (remaining: set<string>, forwarded: seq<Token>)
    ensures remaining == others - {fname}
    ensures forwarded == [Token(StrV(fname))]
  {
    var fs := new FileSystem(others + {fname}, {});
    var delete := new DeleteFile("delete", map[]);
    delete.base.SetInput(Token(StrV(fname)));
    var status := delete.DoExecute(host, fs);
    remaining := fs.files;
    forwarded := delete.base.output;
  }

  /** Every storage actor of a flow without storage reports the missing handler and
      forwards nothing. */
  method NoStorage(host: Host) returns (statuses: seq<Status>)
    ensures statuses == [Error(NoStorageHandler), Error(NoStorageHandler), Error(NoStorageHandler), Error(NoStorageHandler)]
  {
    var s1 := SetWithoutStorage();
    var s2 := DeleteWithoutStorage();
    var s3 := InitWithoutStorage(host);
    var s4 := UpdateWithoutStorage(host);
    statuses := [s1, s2, s3, s4];
  }

  method SetWithoutStorage() returns (status: Status)
    ensures status == Error(NoStorageHandler)
  {
    var actor := new SetStorageValue("set", map[], null);
    actor.base.SetInput(Token(IntV(1)));
    status := actor.DoExecute();
  }

  method DeleteWithoutStorage() returns (status: Status)
    ensures status == Error(NoStorageHandler)
  {
    var actor := new DeleteStorageValue("delete", map[], null);
    actor.base.SetInput(Token(IntV(1)));
    status := actor.DoExecute();
  }

  method InitWithoutStorage(host: Host) returns (status: Status)
    ensures status == Error(NoStorageHandler)
  {
    var actor := new InitStorageValue("init", map[], null);
    actor.base.SetInput(Token(IntV(1)));
    status := actor.DoExecute(host);
  }

  method UpdateWithoutStorage(host: Host) returns (status: Status)
    ensures status == Error(NoStorageHandler)
  {
    var actor := new UpdateStorageValue("update", map[], null);
    actor.base.SetInput(Token(IntV(1)));
    status := actor.DoExecute(host);
  }

  /** A token Filter's `check_input` accepts is filtered: one prepared copy of the configured
      filter is applied and its result forwarded. */
  method CheckedFilter(host: Host, f: FilterSetup, token: Token) returns (status: Status, forwarded: seq<Token>)
    requires Filter.CheckInput(host, "filter", Some(token)) == Ok
    ensures status == Ok
    ensures forwarded == [Token(DataV(host.applyFilter(Prepared(f, token.payload.data), token.payload.data)))]
  {
    Filter.AcceptsExactlyDatasets(host, "filter", Some(token));
    var actor := new Filter("filter", map["filter" := FilterV(f)]);
    actor.base.SetInput(token);
    status := actor.DoExecute(host);
    forwarded := actor.base.output;
  }

  /** A token Train's `check_input` accepts is trained on by a copy of the configured model. */
  method CheckedTrain(host: Host, m: Model, token: Token) returns (status: Status, forwarded: seq<Token>)
    requires Train.CheckInput(host, "train", Some(token)) == Ok
    ensures status == Ok
    ensures forwarded == [Token(ContainerV(ModelContainer(Built(m, token.payload.data), Some(Template(token.payload.data)))))]
  {
    Train.AcceptsExactlyDatasets(host, "train", Some(token));
    var actor := new Train("train", map["setup" := ModelV(m)]);
    actor.base.SetInput(token);
    status := actor.DoExecute(host);
    forwarded := actor.base.output;
  }

  /** A file name LoadDataset's `check_input` accepts but that names nothing on disk gives the
      missing-file error naming that very path, and nothing is queued. */
  method CheckedLoadOfMissingFile(host: Host, token: Token) returns (status: Status, forwarded: seq<Token>)
    requires LoadDataset.CheckInput(host, "load", Some(token)) == Ok
    ensures token.payload.StrV?
    ensures status == Error("File '" + token.payload.s + "' does not exist!") && forwarded == []
  {
    LoadDataset.AcceptsExactlyFileNames(host, "load", Some(token));
    var fs := new FileSystem({}, {});
    var actor := new LoadDataset("load", map[]);
    actor.base.SetInput(token);
    status := actor.DoExecute(host, fs);
    forwarded := actor.base.output;
  }

  /** Stopping an incremental load part-way: no further record is pending or produced. */
  method StopMidStream(host: Host, fname: string, data: Dataset) returns (first: Option<Token>, pending: bool, after: Option<Token>)
    requires |data.rows| >= 2
    requires host.loaderForFile(fname).Some?
    requires host.load(host.loaderForFile(fname).value, fname) == Some(data)
    ensures first == Some(Token(InstanceV(data.rows[0])))
    ensures !pending && after == None
  {
    var load := StartIncremental(host, fname, data);
    first := load.Output();
    load.StopExecution();
    pending := load.HasOutput();
    after := load.Output();
  }

  /** ClassSelector makes no type test: a model container under the index "2" is forwarded
      unchanged, while under "last" it raises. */
  method ObjectThroughSelector(host: Host, c: ModelContainer) returns (numbered: Status, forwarded: seq<Token>, last: Status)
    ensures numbered == Ok && forwarded == [Token(ContainerV(c))]
    ensures last.Raise?
  {
    numbered, forwarded := SelectNumbered(host, ContainerV(c));
    last := SelectLast(host, ContainerV(c));
  }

  method SelectNumbered(host: Host, payload: Value) returns (status: Status, forwarded: seq<Token>)
    requires ClassSelector.TakesAttributes(payload)
    ensures status == Ok && forwarded == [Token(payload)]
  {
    assert ParseInt("2") == Some(2) by {
      assert "2" == IntToString(2) by { assert DigitChar(2) == '2'; }
      ParseIntOfIntToString(2);
    }
    var selector := new ClassSelector("select", map["index" := StrV("2")]);
    selector.base.SetInput(Token(payload));
    status := selector.DoExecute(host);
    forwarded := selector.base.output;
  }

  method SelectLast(host: Host, payload: Value) returns (status: Status)
    requires !payload.DataV?
    ensures status.Raise?
  {
    var selector := new ClassSelector("select", map[]);
    selector.base.SetInput(Token(payload));
    status := selector.DoExecute(host);
  }
}
