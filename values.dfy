/** The payloads that travel through a flow inside tokens, and the host-language
    conversions (`bool(v)`, `int(v)`) the actors apply to payloads and option values.
    Datasets, models, filters and loaders belong to the machine-learning toolkit behind the
    bridge; they are abstract values here, carrying only what the actors look at. */
module Values {
  import opened Wrappers
  import opened Numbers

  /** A column of a dataset: its name and its type, as the toolkit describes it. */
  datatype Attribute = Attribute(name: string, kind: string)

  /** One record of a dataset. */
  datatype Instance = Instance(cells: seq<string>)

  /** A dataset: its header (relation name, attributes, class index; -1 when no class is
      set) and its records. */
  datatype Dataset = Dataset(relation: string, attributes: seq<Attribute>, classIndex: int, rows: seq<Instance>)
  {
    function NumAttributes(): nat { |attributes| }
  }

  /** `Instances.template_instances(data)`: the header of a dataset without its records. */
  function Template(d: Dataset): (t: Dataset)
    ensures t.rows == [] && t.attributes == d.attributes && t.classIndex == d.classIndex
  {
    d.(rows := [])
  }

  /** The template has the schema of its dataset and no records, and the template of a
      template is itself: what the Filter actor caches compares equal to the data it came from. */
  lemma TemplateKeepsSchema(d: Dataset)
    ensures EqualHeaders(Template(d), d) && Template(d).rows == []
    ensures Template(Template(d)) == Template(d)
  {
  }

  /** Schema equality, the test behind `equal_headers`: same attributes and same class index.
      The relation name and the records do not take part. */
  predicate EqualHeaders(a: Dataset, b: Dataset)
  {
    a.attributes == b.attributes && a.classIndex == b.classIndex
  }

  /** The three kinds of model the toolkit offers. */
  datatype ModelKind = Classifier | Clusterer | Associator

  /** A model: its kind, its class name, and the data it was built on (None while untrained). */
  datatype Model = Model(kind: ModelKind, classname: string, trainedOn: Option<Dataset>)

  /** `make_copy(m)` followed by `build_classifier` / `build_clusterer` / `build_associations`:
      a copy of the configured model, trained on `data`. The original is left as it was. */
  function Built(m: Model, data: Dataset): (b: Model)
    ensures b.kind == m.kind && b.classname == m.classname && b.trainedOn == Some(data)
  {
    m.(trainedOn := Some(data))
  }

  /** Copy-on-use: what a model was built on before is discarded by the next build, so a
      built copy depends only on the configured model and the new data, and two builds of
      the same configuration agree exactly when their data does. */
  lemma BuiltIsFreshCopy(m: Model, d1: Dataset, d2: Dataset)
    ensures Built(Built(m, d1), d2) == Built(m, d2)
    ensures Built(m, d1) == Built(m, d2) <==> d1 == d2
  {
  }

  /** A filter setup, with the input format it was prepared for (None before `inputformat`). */
  datatype FilterSetup = FilterSetup(classname: string, inputFormat: Option<Dataset>)

  /** `make_copy(f)` followed by `inputformat(data)`: a copy of the configured filter,
      prepared for the header of `data`. */
  function Prepared(f: FilterSetup, data: Dataset): (p: FilterSetup)
    ensures p.classname == f.classname && p.inputFormat == Some(Template(data))
  {
    f.(inputFormat := Some(Template(data)))
  }

  /** Copy-on-use for filters: preparing again forgets the earlier preparation, and two
      preparations of the same configuration agree exactly when the templates of their
      data do (the records play no part). */
  lemma PreparedIsFreshCopy(f: FilterSetup, d1: Dataset, d2: Dataset)
    ensures Prepared(Prepared(f, d1), d2) == Prepared(f, d2)
    ensures Prepared(f, d1) == Prepared(f, d2) <==> Template(d1) == Template(d2)
  {
  }

  /** A file loader of the toolkit, named by its class. */
  datatype Loader = Loader(classname: string)

  /** A trained model with, optionally, the header of the data it was trained on. */
  datatype ModelContainer = ModelContainer(model: Model, header: Option<Dataset>)

  /** The outcome of cross-validating a classifier: what was evaluated and how. The
      statistics themselves are computed by the toolkit and are left abstract. */
  datatype Evaluation = CrossValidation(classifier: Model, data: Dataset, folds: int, seed: int,
                                        discardPredictions: bool, output: Value)

  /** A payload or an option value. `ObjectV` stands for any other host or toolkit object,
      known by its class name and an identity. `LogLikelihoodV` is the (floating-point)
      log-likelihood a clusterer's cross-validation yields, named by its arguments. */
  datatype Value =
    | NoneV
    | BoolV(b: bool)
    | IntV(i: int)
    | StrV(s: string)
    | DataV(data: Dataset)
    | InstanceV(instance: Instance)
    | ModelV(model: Model)
    | FilterV(filter: FilterSetup)
    | LoaderV(loader: Loader)
    | ContainerV(container: ModelContainer)
    | EvaluationV(evaluation: Evaluation)
    | LogLikelihoodV(clusterer: Model, of: Dataset, folds: int, seed: int)
    | ObjectV(classname: string, id: nat)

  /** The unit of data passed between actors. */
  datatype Token = Token(payload: Value)

  /** Python's `bool(v)`: None, False, 0 and the empty string are false, everything else
      (including every object) is true. */
  function Truthy(v: Value): (b: bool)
    ensures v.BoolV? ==> b == v.b
    ensures v.StrV? ==> (b <==> v.s != "")
  {
    match v
    case NoneV => false
    case BoolV(b) => b
    case IntV(i) => i != 0
    case StrV(s) => s != ""
    case _ => true
  }

  /** Python's `int(v)`; `None` stands for the ValueError or TypeError it raises. */
  function ToInt(v: Value): (r: Option<int>)
    ensures v.IntV? ==> r == Some(v.i)
    ensures v.StrV? ==> r == ParseInt(v.s)
    ensures v.NoneV? ==> r == None
  {
    match v
    case IntV(i) => Some(i)
    case BoolV(b) => Some(if b then 1 else 0)
    case StrV(s) => ParseInt(s)
    case _ => None
  }

  /** For numbers and booleans, `bool(v)` is `int(v) != 0`. */
  lemma TruthyIsNonZero(v: Value)
    requires v.IntV? || v.BoolV?
    ensures Truthy(v) <==> ToInt(v) != Some(0)
  {
  }

  /** `int(str(i)) == i` for a value holding the text of an integer. */
  lemma ToIntOfText(i: int)
    ensures ToInt(StrV(IntToString(i))) == Some(i)
  {
    ParseIntOfIntToString(i);
  }
}
