/** The actors that build, evaluate and read models: Train, CrossValidate, EvaluationSummary
    and ModelReader. Train and CrossValidate never touch the configured model: they work on a
    copy of it, and a configured value of a kind they cannot use is reported as an error. */
module ModelActors {
  import opened Wrappers
  import opened Numbers
  import opened Values
  import opened Options
  import opened FlowBase

  /** The default setup of Train and CrossValidate: an untrained ZeroR classifier. */
  const ZeroR: Model := Model(Classifier, "weka.classifiers.rules.ZeroR", None)

  /** Trains a copy of the configured model on the incoming dataset and forwards it in a
      container together with the dataset's header. */
  class Train {
    static const Declared: Defaults := [("setup", ModelV(ZeroR))]

    const base: Transformer

    /** `fix_options`. */
    static function FixOptions(options: OptionMap): (fixed: OptionMap)
      ensures Defaulted(options, Declared, fixed) && ApplyDefaults(fixed, Declared) == fixed
      ensures fixed["setup"] == if "setup" in options then options["setup"] else ModelV(ZeroR)
    {
      FixWith(options, Declared)
    }

    ghost predicate Valid()
      reads this, base
    {
      "setup" in base.options
    }

    constructor (name: string, options: OptionMap)
      ensures Valid() && fresh(base) && base.options == FixOptions(options)
      ensures base.input == None && base.output == [] && base.storagehandler == null
    {
      base := new Transformer(name, FixOptions(options), null);
    }

    /** `check_input`: only a dataset is accepted. There is no test for a missing token here,
        so a missing token raises when its payload is looked up. */
    static function CheckInput(host: Host, fullName: string, token: Option<Token>): (status: Status)
      ensures token.None? ==> status.Raise?
      ensures token.Some? && token.value.payload.DataV? ==> status == Ok
      ensures token.Some? && !token.value.payload.DataV? ==>
        status == Raise(fullName + ": Unhandled data type: " + host.typeName(token.value.payload))
    {
      match token
      case None => Raise("AttributeError")
      case Some(t) =>
        if t.payload.DataV? then Ok
        else Raise(fullName + ": Unhandled data type: " + host.typeName(t.payload))
    }

    /** `check_input` accepts exactly a token carrying a dataset, so an accepted token never
        takes the raising branch of `DoExecute`. */
    static lemma AcceptsExactlyDatasets(host: Host, fullName: string, token: Option<Token>)
      ensures CheckInput(host, fullName, token) == Ok <==> token.Some? && token.value.payload.DataV?
    {
    }

    /** A classifier, clusterer or associator is copied, the copy is built on the dataset and
        forwarded with the dataset's header; the configured model stays untrained. Anything
        else configured is an "Unhandled class" error that queues nothing. */
    method DoExecute(host: Host) returns (status: Status)
      requires Valid() && base.input.Some?
      modifies base`output
      ensures var setup := base.options["setup"];
        var payload := base.input.value.payload;
        && (!setup.ModelV? ==>
              status == Error("Unhandled class: " + host.classname(setup)) && base.output == old(base.output))
        && (setup.ModelV? && !payload.DataV? ==> status.Raise? && base.output == old(base.output))
        && (setup.ModelV? && payload.DataV? ==>
              && status == Ok
              && base.output == old(base.output)
                   + [Token(ContainerV(ModelContainer(Built(setup.model, payload.data), Some(Template(payload.data)))))])
    {
      var setup := base.options["setup"];
      if !setup.ModelV? {
        return Error("Unhandled class: " + host.classname(setup));
      }
      var payload := base.input.value.payload;
      if !payload.DataV? {
        return Raise("build on a non-dataset");
      }
      var trained := Built(setup.model, payload.data);
      var container := ModelContainer(trained, Some(Template(payload.data)));
      base.output := base.output + [Token(ContainerV(container))];
      status := Ok;
    }
  }

  /** Cross-validates a copy of the configured classifier (forwarding the evaluation) or
      clusterer (forwarding the log-likelihood) on the incoming dataset. */
  class CrossValidate {
    static const Declared: Defaults :=
      [("setup", ModelV(ZeroR)), ("folds", IntV(10)), ("seed", IntV(1)),
       ("discard_predictions", BoolV(false)), ("output", NoneV)]

    const base: Transformer

    /** `fix_options`. */
    static function FixOptions(options: OptionMap): (fixed: OptionMap)
      ensures Defaulted(options, Declared, fixed) && ApplyDefaults(fixed, Declared) == fixed
      ensures "setup" in fixed && "folds" in fixed && "seed" in fixed
      ensures "discard_predictions" in fixed && "output" in fixed
      ensures fixed["setup"] == if "setup" in options then options["setup"] else ModelV(ZeroR)
      ensures fixed["folds"] == if "folds" in options then options["folds"] else IntV(10)
      ensures fixed["seed"] == if "seed" in options then options["seed"] else IntV(1)
      ensures fixed["discard_predictions"]
              == if "discard_predictions" in options then options["discard_predictions"] else BoolV(false)
      ensures fixed["output"] == if "output" in options then options["output"] else NoneV
    {
      DeclaredEntry(Declared, 1);
      DeclaredEntry(Declared, 2);
      DeclaredEntry(Declared, 3);
      DeclaredEntry(Declared, 4);
      FixWith(options, Declared)
    }

    ghost predicate Valid()
      reads this, base
    {
      "setup" in base.options && "folds" in base.options && "seed" in base.options
      && "discard_predictions" in base.options && "output" in base.options
    }

    constructor (name: string, options: OptionMap)
      ensures Valid() && fresh(base) && base.options == FixOptions(options)
      ensures base.input == None && base.output == [] && base.storagehandler == null
    {
      base := new Transformer(name, FixOptions(options), null);
    }

    /** A classifier yields an evaluation over the configured folds, seed, prediction-discard
        flag and prediction output; a clusterer yields its log-likelihood over the folds and
        seed. Folds or a seed that are not integers, and a payload that is not a dataset,
        raise. Any other setup, an associator included, is an "Unhandled class" error. */
    method DoExecute(host: Host) returns (status: Status)
      requires Valid() && base.input.Some?
      modifies base`output
      ensures var setup := base.options["setup"];
        var payload := base.input.value.payload;
        var folds := ToInt(base.options["folds"]);
        var seed := ToInt(base.options["seed"]);
        var usable := setup.ModelV? && setup.model.kind != Associator;
        && (!usable ==>
              status == Error("Unhandled class: " + host.classname(setup)) && base.output == old(base.output))
        && (usable && (!payload.DataV? || folds.None? || seed.None?) ==>
              status.Raise? && base.output == old(base.output))
        && (usable && payload.DataV? && folds.Some? && seed.Some? && setup.model.kind == Classifier ==>
              && status == Ok
              && base.output == old(base.output)
                   + [Token(EvaluationV(CrossValidation(setup.model, payload.data, folds.value, seed.value,
                                                       Truthy(base.options["discard_predictions"]),
                                                       base.options["output"])))])
        && (usable && payload.DataV? && folds.Some? && seed.Some? && setup.model.kind == Clusterer ==>
              && status == Ok
              && base.output == old(base.output)
                   + [Token(LogLikelihoodV(setup.model, payload.data, folds.value, seed.value))])
    {
      var setup := base.options["setup"];
      if !setup.ModelV? || setup.model.kind == Associator {
        return Error("Unhandled class: " + host.classname(setup));
      }
      var payload := base.input.value.payload;
      if !payload.DataV? {
        return Raise("evaluate a non-dataset");
      }
      var folds := ToInt(base.options["folds"]);
      var seed := ToInt(base.options["seed"]);
      if folds.None? || seed.None? {
        return Raise("ValueError");
      }
      var result: Value;
      if setup.model.kind == Classifier {
        var discard := Truthy(base.options["discard_predictions"]);
        result := EvaluationV(CrossValidation(setup.model, payload.data, folds.value, seed.value,
                                              discard, base.options["output"]));
      } else {
        result := LogLikelihoodV(setup.model, payload.data, folds.value, seed.value);
      }
      base.output := base.output + [Token(result)];
      status := Ok;
    }
  }

  /** Turns an evaluation into its textual summary, optionally followed by the confusion matrix. */
  class EvaluationSummary {
    static const Declared: Defaults := [("title", NoneV), ("complexity", BoolV(false)), ("matrix", BoolV(false))]

    const base: Transformer

    /** `fix_options`. */
    static function FixOptions(options: OptionMap): (fixed: OptionMap)
      ensures Defaulted(options, Declared, fixed) && ApplyDefaults(fixed, Declared) == fixed
      ensures "title" in fixed && "complexity" in fixed && "matrix" in fixed
      ensures fixed["title"] == if "title" in options then options["title"] else NoneV
      ensures fixed["complexity"] == if "complexity" in options then options["complexity"] else BoolV(false)
      ensures fixed["matrix"] == if "matrix" in options then options["matrix"] else BoolV(false)
    {
      DeclaredEntry(Declared, 1);
      DeclaredEntry(Declared, 2);
      FixWith(options, Declared)
    }

    ghost predicate Valid()
      reads this, base
    {
      "title" in base.options && "complexity" in base.options && "matrix" in base.options
    }

    constructor (name: string, options: OptionMap)
      ensures Valid() && fresh(base) && base.options == FixOptions(options)
      ensures base.input == None && base.output == [] && base.storagehandler == null
    {
      base := new Transformer(name, FixOptions(options), null);
    }

    /** The summary under the configured title, with complexity statistics when asked for;
        when `matrix` is set, a line break and the confusion matrix follow it. A payload that
        is not an evaluation raises. */
    method DoExecute(host: Host) returns (status: Status)
      requires Valid() && base.input.Some?
      modifies base`output
      ensures var payload := base.input.value.payload;
        var title := base.options["title"];
        && (!payload.EvaluationV? ==> status.Raise? && base.output == old(base.output))
        && (payload.EvaluationV? ==>
              var summary := host.summary(payload.evaluation, title, Truthy(base.options["complexity"]));
              && status == Ok
              && base.output == old(base.output)
                   + [Token(StrV(if Truthy(base.options["matrix"])
                                 then summary + "\n" + host.matrix(payload.evaluation, title)
                                 else summary))])
    {
      var payload := base.input.value.payload;
      if !payload.EvaluationV? {
        return Raise("AttributeError");
      }
      var title := base.options["title"];
      var summary := host.summary(payload.evaluation, title, Truthy(base.options["complexity"]));
      if Truthy(base.options["matrix"]) {
        summary := summary + "\n" + host.matrix(payload.evaluation, title);
      }
      base.output := base.output + [Token(StrV(summary))];
      status := Ok;
    }
  }

  /** Reads a serialized model, optionally followed by a dataset header, from the file named
      by the payload and forwards it in a container. */
  class ModelReader {
    const base: Transformer

    constructor (name: string, options: OptionMap)
      ensures fresh(base) && base.options == options
      ensures base.input == None && base.output == [] && base.storagehandler == null
    {
      base := new Transformer(name, options, null);
    }

    /** The error for a file holding neither one nor two objects. */
    static function CountError(count: nat, fname: string): string
    {
      "Expected 1 or 2 objects, but got " + IntToString(count) + " instead reading: " + fname
    }

    /** The container the objects read from `fname` describe: a classifier or clusterer, then
        optionally the header of its training data. */
    static function ReadContainer(host: Host, objects: seq<Value>, fname: string): (r: Result<ModelContainer>)
      ensures r.Success? <==>
        && (|objects| == 1 || |objects| == 2)
        && objects[0].ModelV? && objects[0].model.kind != Associator
        && (|objects| == 2 ==> objects[1].DataV?)
      ensures r.Success? ==>
        && r.value.model == objects[0].model
        && r.value.header == (if |objects| == 2 then Some(objects[1].data) else None)
      ensures |objects| != 1 && |objects| != 2 ==> r == Failure(Error(CountError(|objects|, fname)))
      ensures (|objects| == 1 || |objects| == 2) && !(objects[0].ModelV? && objects[0].model.kind != Associator) ==>
        r == Failure(Error("Unhandled class: " + host.classname(objects[0])))
      ensures |objects| == 2 && objects[0].ModelV? && objects[0].model.kind != Associator && !objects[1].DataV? ==>
        r.Failure? && r.status.Raise?
    {
      if |objects| != 1 && |objects| != 2 then Failure(Error(CountError(|objects|, fname)))
      else if !objects[0].ModelV? || objects[0].model.kind == Associator then
        Failure(Error("Unhandled class: " + host.classname(objects[0])))
      else if |objects| == 1 then Success(ModelContainer(objects[0].model, None))
      else if objects[1].DataV? then Success(ModelContainer(objects[0].model, Some(objects[1].data)))
      else Failure(Raise("TypeError"))
    }

    /** How a container is written to disk: the model, then the header when there is one. */
    static function Serialized(c: ModelContainer): (objects: seq<Value>)
      ensures 1 <= |objects| <= 2 && objects[0] == ModelV(c.model)
      ensures |objects| == 2 <==> c.header.Some?
    {
      [ModelV(c.model)] + (if c.header.Some? then [DataV(c.header.value)] else [])
    }

    /** Reading what was written gives back the container, for a classifier or a clusterer. */
    static lemma ReadSerialized(host: Host, c: ModelContainer, fname: string)
      requires c.model.kind != Associator
      ensures ReadContainer(host, Serialized(c), fname) == Success(c)
    {
    }

    /** Conversely, whatever is read successfully is exactly what that container would write. */
    static lemma SerializedRead(host: Host, objects: seq<Value>, fname: string)
      requires ReadContainer(host, objects, fname).Success?
      ensures Serialized(ReadContainer(host, objects, fname).value) == objects
    {
      var c := ReadContainer(host, objects, fname).value;
      if |objects| == 1 {
        assert Serialized(c) == [objects[0]];
      } else {
        assert Serialized(c) == [objects[0], objects[1]];
      }
    }

    /** A file name that is not a string and a file that cannot be read raise; otherwise the
        container read is queued, or its error is returned and nothing is queued. */
    method DoExecute(host: Host) returns (status: Status)
      requires base.input.Some?
      modifies base`output
      ensures var payload := base.input.value.payload;
        && (!payload.StrV? || host.readAll(payload.s).None? ==> status.Raise? && base.output == old(base.output))
        && (payload.StrV? && host.readAll(payload.s).Some? ==>
              match ReadContainer(host, host.readAll(payload.s).value, payload.s)
              case Success(c) => status == Ok && base.output == old(base.output) + [Token(ContainerV(c))]
              case Failure(error) => status == error && base.output == old(base.output))
    {
      var payload := base.input.value.payload;
      if !payload.StrV? {
        return Raise("TypeError");
      }
      var objects := host.readAll(payload.s);
      if objects.None? {
        return Raise("read_all");
      }
      var read := ReadContainer(host, objects.value, payload.s);
      match read
      case Success(c) =>
        base.output := base.output + [Token(ContainerV(c))];
        status := Ok;
      case Failure(error) =>
        status := error;
    }
  }
}
