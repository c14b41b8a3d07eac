/** The actors that produce or reshape datasets: LoadDataset (all at once, or record by
    record through an iterator it holds), ClassSelector (sets or clears the class column)
    and Filter (applies a filter it refits only when the dataset's schema changes). */
module DatasetActors {
  import opened Wrappers
  import opened Numbers
  import opened Values
  import opened Options
  import opened FlowBase

  /** Loads a dataset from the file named by the payload. */
  class LoadDataset {
    static const ArffLoader: Loader := Loader("weka.core.converters.ArffLoader")
    static const Declared: Defaults :=
      [("incremental", BoolV(false)), ("use_custom_loader", BoolV(false)), ("custom_loader", LoaderV(ArffLoader))]

    const base: Transformer
    /** `_loader`: the loader last chosen, as it was found (it need not be a loader). */
    var loader: Option<Value>
    /** `_iterator`: in incremental mode, the records still to be produced. */
    var records: Option<seq<Instance>>

    /** `fix_options`. */
    static function FixOptions(options: OptionMap): (fixed: OptionMap)
      ensures Defaulted(options, Declared, fixed) && ApplyDefaults(fixed, Declared) == fixed
      ensures "incremental" in fixed && "use_custom_loader" in fixed && "custom_loader" in fixed
      ensures fixed["incremental"] == if "incremental" in options then options["incremental"] else BoolV(false)
      ensures fixed["use_custom_loader"] == if "use_custom_loader" in options then options["use_custom_loader"] else BoolV(false)
      ensures fixed["custom_loader"] == if "custom_loader" in options then options["custom_loader"] else LoaderV(ArffLoader)
    {
      DeclaredEntry(Declared, 1);
      DeclaredEntry(Declared, 2);
      FixWith(options, Declared)
    }

    ghost predicate Valid()
      reads this, base
    {
      "incremental" in base.options && "use_custom_loader" in base.options && "custom_loader" in base.options
    }

    constructor (name: string, options: OptionMap)
      ensures Valid() && fresh(base) && base.options == FixOptions(options)
      ensures base.input == None && base.output == [] && base.storagehandler == null
      ensures loader == None && records == None
    {
      base := new Transformer(name, FixOptions(options), null);
      loader := None;
      records := None;
    }

    /** `check_input`: a missing token or a payload that is not a file name raises. */
    static function CheckInput(host: Host, fullName: string, token: Option<Token>): (status: Status)
      ensures token.None? ==> status == Raise(fullName + ": No token provided!")
      ensures token.Some? && token.value.payload.StrV? ==> status == Ok
      ensures token.Some? && !token.value.payload.StrV? ==>
        status == Raise(fullName + ": Unhandled class: " + host.classname(token.value.payload))
    {
      match token
      case None => Raise(fullName + ": No token provided!")
      case Some(t) =>
        if t.payload.StrV? then Ok else Raise(fullName + ": Unhandled class: " + host.classname(t.payload))
    }

    /** `check_input` accepts exactly a token carrying a string, so the path `DoExecute` reads
        with `str` is that string itself. */
    static lemma AcceptsExactlyFileNames(host: Host, fullName: string, token: Option<Token>)
      ensures CheckInput(host, fullName, token) == Ok <==> token.Some? && token.value.payload.StrV?
      ensures CheckInput(host, fullName, token) == Ok ==> host.Str(token.value.payload) == token.value.payload.s
    {
    }

    /** The loader the step uses: the configured one when `use_custom_loader` is set,
        otherwise the one the toolkit picks for the file name. */
    static function ChosenLoader(host: Host, options: OptionMap, fname: string): (chosen: Option<Value>)
      requires "use_custom_loader" in options && "custom_loader" in options
      ensures Truthy(options["use_custom_loader"]) ==> chosen == Some(options["custom_loader"])
      ensures !Truthy(options["use_custom_loader"]) ==>
        (chosen.Some? <==> host.loaderForFile(fname).Some?)
        && (chosen.Some? ==> chosen.value == LoaderV(host.loaderForFile(fname).value))
    {
      if Truthy(options["use_custom_loader"]) then Some(options["custom_loader"])
      else match host.loaderForFile(fname)
        case Some(l) => Some(LoaderV(l))
        case None => None
    }

    /** The dataset a chosen loader reads from the file; None when there is no loader or the
        chosen value is not a loader (calling `load_file` on it raises) or loading raises. */
    static function LoadWith(host: Host, chosen: Option<Value>, fname: string): (data: Option<Dataset>)
      ensures data.Some? ==> chosen.Some? && chosen.value.LoaderV? && data == host.load(chosen.value.loader, fname)
    {
      match chosen
      case Some(LoaderV(l)) => host.load(l, fname)
      case _ => None
    }

    /** A missing path and a path that is not a regular file are errors that change nothing.
        Otherwise the chosen loader is kept; then batch mode queues one token with the whole
        dataset and incremental mode holds an iterator over its records and queues nothing. */
    method DoExecute(host: Host, fs: FileSystem) returns (status: Status)
      requires Valid() && base.input.Some?
      modifies this`loader, this`records, base`output
      ensures var fname := host.Str(base.input.value.payload);
        && (!fs.Exists(fname) ==>
              status == Error("File '" + fname + "' does not exist!")
              && loader == old(loader) && records == old(records) && base.output == old(base.output))
        && (fs.Exists(fname) && !fs.IsFile(fname) ==>
              status == Error("Location '" + fname + "' is not a file!")
              && loader == old(loader) && records == old(records) && base.output == old(base.output))
        && (fs.IsFile(fname) ==>
              var chosen := ChosenLoader(host, base.options, fname);
              var data := LoadWith(host, chosen, fname);
              var incremental := Truthy(base.options["incremental"]);
              && loader == chosen
              && (data.None? ==> status.Raise? && records == old(records) && base.output == old(base.output))
              && (data.Some? && !incremental ==>
                    status == Ok && records == old(records) && base.output == old(base.output) + [Token(DataV(data.value))])
              && (data.Some? && incremental ==>
                    status == Ok && records == Some(data.value.rows) && base.output == old(base.output)))
    {
      var fname := host.Str(base.input.value.payload);
      if !fs.Exists(fname) {
        return Error("File '" + fname + "' does not exist!");
      }
      if !fs.IsFile(fname) {
        return Error("Location '" + fname + "' is not a file!");
      }
      loader := ChosenLoader(host, base.options, fname);
      var data := LoadWith(host, loader, fname);
      if data.None? {
        return Raise("load_file");
      }
      if !Truthy(base.options["incremental"]) {
        base.output := base.output + [Token(DataV(data.value))];
      } else {
        records := Some(data.value.rows);
      }
      status := Ok;
    }

    /** `has_output`: a queued token, or an iterator still held (even an exhausted one). */
    predicate HasOutput()
      reads this, base
    {
      base.HasOutput() || records.Some?
    }

    /** `output`: while an iterator is held, the next record in a new token; on exhaustion the
        iterator is dropped and nothing is produced. Without an iterator, the queue's head. */
    method Output() returns (token: Option<Token>)
      modifies this`records, base`output
      ensures old(records).Some? && old(records).value != [] ==>
        && token == Some(Token(InstanceV(old(records).value[0])))
        && records == Some(old(records).value[1..]) && base.output == old(base.output)
      ensures old(records) == Some([]) ==> token == None && records == None && base.output == old(base.output)
      ensures old(records).None? ==>
        && records == None
        && (old(base.output) == [] ==> token == None && base.output == [])
        && (old(base.output) != [] ==> token == Some(old(base.output)[0]) && base.output == old(base.output)[1..])
    {
      match records
      case Some(rest) =>
        if rest == [] {
          records := None;
          token := None;
        } else {
          token := Some(Token(InstanceV(rest[0])));
          records := Some(rest[1..]);
        }
      case None =>
        token := base.Output();
    }

    /** `stop_execution`: drops the loader and the iterator; what remains queued stays. */
    method StopExecution()
      modifies this`loader, this`records
      ensures loader == None && records == None
      ensures HasOutput() <==> base.HasOutput()
    {
      loader := None;
      records := None;
    }

    /** `wrapup`: drops the loader and the iterator. */
    method Wrapup()
      modifies this`loader, this`records
      ensures loader == None && records == None
      ensures HasOutput() <==> base.HasOutput()
    {
      loader := None;
      records := None;
    }
  }

  /** Where ClassSelector puts the class: nowhere, at a 0-based index, or nowhere because the
      index text is not a number (`int()` raises). */
  datatype ClassChoice = NoClass | ClassAt(index: int) | NotANumber

  /** Sets or clears the class column of the incoming dataset and forwards it. */
  class ClassSelector {
    static const Declared: Defaults := [("index", StrV("last")), ("unset", BoolV(false))]

    const base: Transformer

    /** `fix_options`. */
    static function FixOptions(options: OptionMap): (fixed: OptionMap)
      ensures Defaulted(options, Declared, fixed) && ApplyDefaults(fixed, Declared) == fixed
      ensures fixed["index"] == if "index" in options then options["index"] else StrV("last")
      ensures fixed["unset"] == if "unset" in options then options["unset"] else BoolV(false)
    {
      FixWith(options, Declared)
    }

    ghost predicate Valid()
      reads this, base
    {
      "index" in base.options && "unset" in base.options
    }

    constructor (name: string, options: OptionMap)
      ensures Valid() && fresh(base) && base.options == FixOptions(options)
      ensures base.input == None && base.output == [] && base.storagehandler == null
    {
      base := new Transformer(name, FixOptions(options), null);
    }

    /** The mapping from the options to a class position: `unset` first, then "first",
        "last", and otherwise a 1-based number. */
    static function Choose(unset: bool, index: string, numAttributes: nat): (c: ClassChoice)
      ensures c == NoClass <==> unset
      ensures c == NotANumber <==> !unset && index != "first" && index != "last" && ParseInt(index).None?
      ensures !unset && index == "first" ==> c == ClassAt(0)
      ensures !unset && index == "last" ==> c == ClassAt(numAttributes - 1)
    {
      if unset then NoClass
      else if index == "first" then ClassAt(0)
      else if index == "last" then ClassAt(numAttributes - 1)
      else match ParseInt(index)
        case Some(k) => ClassAt(k - 1)
        case None => NotANumber
    }

    /** Applies a choice through the dataset's class-index setter, which refuses an index at or
        beyond the number of attributes (the step then raises). Only the class index changes. */
    static function Apply(choice: ClassChoice, data: Dataset): (r: Option<Dataset>)
      ensures r.Some? ==> r.value == data.(classIndex := r.value.classIndex)
      ensures choice == NoClass ==> r == Some(data.(classIndex := -1))
      ensures choice.ClassAt? ==> (r.Some? <==> choice.index < data.NumAttributes())
      ensures choice.ClassAt? && r.Some? ==> r.value.classIndex == choice.index
      ensures choice == NotANumber ==> r == None
    {
      match choice
      case NoClass => Some(data.(classIndex := -1))
      case ClassAt(k) => if k < data.NumAttributes() then Some(data.(classIndex := k)) else None
      case NotANumber => None
    }

    /** `unset` wins whatever the index says. */
    static lemma UnsetWins(index: string, n: nat)
      ensures Choose(true, index, n) == NoClass
    {
    }

    /** A number k written in decimal selects the 0-based index k - 1. */
    static lemma {:induction false} NumberSelects(k: int, n: nat)
      ensures Choose(false, IntToString(k), n) == ClassAt(k - 1)
    {
      var s := IntToString(k);
      IntToStringStartsWithSignOrDigit(k);
      assert s != "first" && s != "last" by {
        assert s[0] != 'f' && s[0] != 'l';
      }
      ParseIntOfIntToString(k);
    }

    /** Any text `int()` accepts, with its white space and sign, selects the 0-based index one
        below its value. */
    static lemma LiteralSelects(text: string, lead: string, sign: string, gap: string, digits: string, trail: string, n: nat)
      requires Literal(text, lead, sign, gap, digits, trail)
      ensures Choose(false, text, n) == ClassAt(Signed(sign, digits) - 1)
    {
      ParseIntOfLiteral(lead, sign, gap, digits, trail);
      assert Strip("first") == "first" && Strip("last") == "last";
    }

    /** "first" is the same as the number 1. */
    static lemma FirstIsOne(n: nat)
      ensures Choose(false, "first", n) == Choose(false, "1", n)
    {
      assert IntToString(1) == "1";
      NumberSelects(1, n);
    }

    /** "last" is the same as the number of attributes. */
    static lemma LastIsCount(n: nat)
      ensures Choose(false, "last", n) == Choose(false, IntToString(n), n)
    {
      NumberSelects(n, n);
    }

    /** Whether a payload that is not a dataset accepts `data.class_index = ...` as a plain
        attribute assignment: the host-side wrappers of containers, models, evaluations,
        filters, loaders and other toolkit objects do; None, booleans, numbers, strings,
        records (whose class index is read-only) and floats refuse it. */
    static predicate TakesAttributes(v: Value)
    {
      v.ContainerV? || v.ModelV? || v.EvaluationV? || v.FilterV? || v.LoaderV? || v.ObjectV?
    }

    /** A dataset is forwarded with only its class index changed; an index that is not a
        number and an index out of range raise. A payload of another kind has no type test:
        under a numeric index the assignment of the class index succeeds on an object that
        takes attributes, which is then forwarded unchanged; everything else raises. */
    method DoExecute(host: Host) returns (status: Status)
      requires Valid() && base.input.Some?
      modifies base`output
      ensures var payload := base.input.value.payload;
        var unset := Truthy(base.options["unset"]);
        var index := host.Str(base.options["index"]);
        && (payload.DataV? ==>
              var result := Apply(Choose(unset, index, payload.data.NumAttributes()), payload.data);
              && (result.None? ==> status.Raise? && base.output == old(base.output))
              && (result.Some? ==> status == Ok && base.output == old(base.output) + [Token(DataV(result.value))]))
        && (!payload.DataV? ==>
              var forwarded := !unset && index != "first" && index != "last" && ParseInt(index).Some?
                               && TakesAttributes(payload);
              && (!forwarded ==> status.Raise? && base.output == old(base.output))
              && (forwarded ==> status == Ok && base.output == old(base.output) + [Token(payload)]))
    {
      var payload := base.input.value.payload;
      var unset := Truthy(base.options["unset"]);
      var index := host.Str(base.options["index"]);
      if !payload.DataV? {
        if unset || index == "first" || index == "last" {
          return Raise("AttributeError");
        }
        if ParseInt(index).None? {
          return Raise("ValueError");
        }
        if !TakesAttributes(payload) {
          return Raise("AttributeError");
        }
        base.output := base.output + [Token(payload)];
        return Ok;
      }
      var choice := Choose(unset, index, payload.data.NumAttributes());
      var result := Apply(choice, payload.data);
      if result.None? {
        return Raise(if choice == NotANumber then "ValueError" else "IllegalArgumentException");
      }
      base.output := base.output + [Token(DataV(result.value))];
      status := Ok;
    }
  }

  /** Applies the configured filter. A prepared copy of it is kept together with the header
      it was prepared for, and a new copy is prepared only when there is none yet or the
      incoming dataset's schema differs from that header. */
  class Filter {
    static const AllFilter: FilterSetup := FilterSetup("weka.filters.AllFilter", None)
    static const Declared: Defaults := [("filter", FilterV(AllFilter))]

    const base: Transformer
    /** `_filter`: the prepared copy in use. */
    var filter: Option<FilterSetup>
    /** `_header`: the header the copy was prepared for. */
    var header: Option<Dataset>
    /** How many times a copy has been prepared (for reasoning only). */
    ghost var refits: nat

    /** `fix_options`. */
    static function FixOptions(options: OptionMap): (fixed: OptionMap)
      ensures Defaulted(options, Declared, fixed) && ApplyDefaults(fixed, Declared) == fixed
      ensures fixed["filter"] == if "filter" in options then options["filter"] else FilterV(AllFilter)
    {
      FixWith(options, Declared)
    }

    /** A prepared filter always comes with its header. */
    ghost predicate Valid()
      reads this, base
    {
      "filter" in base.options && (filter.Some? ==> header.Some?)
    }

    constructor (name: string, options: OptionMap)
      ensures Valid() && fresh(base) && base.options == FixOptions(options)
      ensures base.input == None && base.output == [] && base.storagehandler == null
      ensures filter == None && header == None && refits == 0
    {
      base := new Transformer(name, FixOptions(options), null);
      filter := None;
      header := None;
      refits := 0;
    }

    /** `check_input`: a missing token or a payload that is not a dataset raises. */
    static function CheckInput(host: Host, fullName: string, token: Option<Token>): (status: Status)
      ensures token.None? ==> status == Raise(fullName + ": No token provided!")
      ensures token.Some? && token.value.payload.DataV? ==> status == Ok
      ensures token.Some? && !token.value.payload.DataV? ==>
        status == Raise(fullName + ": Unhandled class: " + host.classname(token.value.payload))
    {
      match token
      case None => Raise(fullName + ": No token provided!")
      case Some(t) =>
        if t.payload.DataV? then Ok else Raise(fullName + ": Unhandled class: " + host.classname(t.payload))
    }

    /** `check_input` accepts exactly a token carrying a dataset: a token it accepts never
        takes the raising branch `DoExecute` has for other payloads. */
    static lemma AcceptsExactlyDatasets(host: Host, fullName: string, token: Option<Token>)
      ensures CheckInput(host, fullName, token) == Ok <==> token.Some? && token.value.payload.DataV?
    {
    }

    /** The refit rule: no prepared filter yet, or a cached header of another schema. */
    static predicate NeedsRefit(filter: Option<FilterSetup>, header: Option<Dataset>, data: Dataset)
      requires filter.Some? ==> header.Some?
    {
      filter.None? || !EqualHeaders(header.value, data)
    }

    /** After a refit on `data`, a dataset of the same schema reuses the prepared copy, and a
        dataset of another schema triggers a new refit. */
    static lemma RefitOnlyOnSchemaChange(f: FilterSetup, data: Dataset, next: Dataset)
      ensures NeedsRefit(Some(Prepared(f, data)), Some(Template(data)), next) <==> !EqualHeaders(data, next)
    {
    }

    /** On a refit the header is cached, then a prepared copy of the configured filter (a
        configured value that is not a filter raises, after the header was cached). The
        configured option itself never changes. Exactly one filtered token is queued. */
    method DoExecute(host: Host) returns (status: Status)
      requires Valid() && base.input.Some?
      modifies this`filter, this`header, this`refits, base`output
      ensures Valid()
      ensures base.options == old(base.options)
      ensures var payload := base.input.value.payload;
        && (!payload.DataV? ==>
              && status.Raise? && filter == old(filter) && header == old(header) && refits == old(refits)
              && base.output == old(base.output))
        && (payload.DataV? && !NeedsRefit(old(filter), old(header), payload.data) ==>
              && status == Ok && filter == old(filter) && header == old(header) && refits == old(refits)
              && base.output == old(base.output) + [Token(DataV(host.applyFilter(filter.value, payload.data)))])
        && (payload.DataV? && NeedsRefit(old(filter), old(header), payload.data) ==>
              var configured := base.options["filter"];
              && header == Some(Template(payload.data))
              && (!configured.FilterV? ==>
                    status.Raise? && filter == old(filter) && refits == old(refits) && base.output == old(base.output))
              && (configured.FilterV? ==>
                    && status == Ok && filter == Some(Prepared(configured.filter, payload.data))
                    && refits == old(refits) + 1
                    && base.output == old(base.output) + [Token(DataV(host.applyFilter(filter.value, payload.data)))]))
    {
      var payload := base.input.value.payload;
      if !payload.DataV? {
        return Raise("AttributeError");
      }
      var data := payload.data;
      if NeedsRefit(filter, header, data) {
        header := Some(Template(data));
        var configured := base.options["filter"];
        if !configured.FilterV? {
          return Raise("AttributeError");
        }
        filter := Some(Prepared(configured.filter, data));
        refits := refits + 1;
      }
      var filtered := host.applyFilter(filter.value, data);
      base.output := base.output + [Token(DataV(filtered))];
      status := Ok;
    }
  }
}
