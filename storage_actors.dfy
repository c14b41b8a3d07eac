/** The actors that read and change the flow's shared storage: SetStorageValue,
    DeleteStorageValue, InitStorageValue and UpdateStorageValue. Each one fails with
    `NoStorageHandler` when the flow has no storage handler, and then changes nothing;
    otherwise it changes the entry named by its `storage_name` option and forwards its
    input token unchanged. */
module StorageActors {
  import opened Wrappers
  import opened Numbers
  import opened Values
  import opened Options
  import opened FlowBase

  /** Stores the payload of the current token under the configured name. */
  class SetStorageValue {
    static const Declared: Defaults := [("storage_name", StrV("unknown"))]

    const base: Transformer

    /** `fix_options`. */
    static function FixOptions(options: OptionMap): (fixed: OptionMap)
      ensures Defaulted(options, Declared, fixed) && ApplyDefaults(fixed, Declared) == fixed
      ensures fixed["storage_name"] == if "storage_name" in options then options["storage_name"] else StrV("unknown")
    {
      FixWith(options, Declared)
    }

    ghost predicate Valid()
      reads this, base
    {
      "storage_name" in base.options
    }

    constructor (name: string, options: OptionMap, handler: StorageHandler?)
      ensures Valid() && fresh(base)
      ensures base.options == FixOptions(options) && base.storagehandler == handler
      ensures base.input == None && base.output == []
    {
      base := new Transformer(name, FixOptions(options), handler);
    }

    method DoExecute() returns (status: Status)
      requires Valid() && base.input.Some?
      modifies base`output, base.storagehandler
      ensures base.storagehandler == null ==> status == Error(NoStorageHandler) && base.output == old(base.output)
      ensures base.storagehandler != null ==>
        && status == Ok
        && base.storagehandler.storage
           == old(base.storagehandler.storage)[base.options["storage_name"] := base.input.value.payload]
        && base.output == old(base.output) + [base.input.value]
    {
      if base.storagehandler == null {
        return Error(NoStorageHandler);
      }
      var handler := base.storagehandler;
      handler.storage := handler.storage[base.options["storage_name"] := base.input.value.payload];
      base.output := base.output + [base.input.value];
      status := Ok;
    }
  }

  /** Removes the configured name from storage; a name that is absent is no error. */
  class DeleteStorageValue {
    static const Declared: Defaults := [("storage_name", StrV("unknown"))]

    const base: Transformer

    /** `fix_options`. */
    static function FixOptions(options: OptionMap): (fixed: OptionMap)
      ensures Defaulted(options, Declared, fixed) && ApplyDefaults(fixed, Declared) == fixed
      ensures fixed["storage_name"] == if "storage_name" in options then options["storage_name"] else StrV("unknown")
    {
      FixWith(options, Declared)
    }

    ghost predicate Valid()
      reads this, base
    {
      "storage_name" in base.options
    }

    constructor (name: string, options: OptionMap, handler: StorageHandler?)
      ensures Valid() && fresh(base)
      ensures base.options == FixOptions(options) && base.storagehandler == handler
      ensures base.input == None && base.output == []
    {
      base := new Transformer(name, FixOptions(options), handler);
    }

    /** `storage.pop(name, None)`. */
    method DoExecute() returns (status: Status)
      requires Valid() && base.input.Some?
      modifies base`output, base.storagehandler
      ensures base.storagehandler == null ==> status == Error(NoStorageHandler) && base.output == old(base.output)
      ensures base.storagehandler != null ==>
        && status == Ok
        && base.storagehandler.storage == old(base.storagehandler.storage) - {base.options["storage_name"]}
        && base.output == old(base.output) + [base.input.value]
    {
      if base.storagehandler == null {
        return Error(NoStorageHandler);
      }
      var handler := base.storagehandler;
      handler.storage := handler.storage - {base.options["storage_name"]};
      base.output := base.output + [base.input.value];
      status := Ok;
    }
  }

  /** Stores the evaluation of the configured `value` text under the configured name. */
  class InitStorageValue {
    static const Declared: Defaults := [("storage_name", StrV("unknown")), ("value", StrV("1"))]

    const base: Transformer

    /** `fix_options`. */
    static function FixOptions(options: OptionMap): (fixed: OptionMap)
      ensures Defaulted(options, Declared, fixed) && ApplyDefaults(fixed, Declared) == fixed
      ensures fixed["storage_name"] == if "storage_name" in options then options["storage_name"] else StrV("unknown")
      ensures fixed["value"] == if "value" in options then options["value"] else StrV("1")
    {
      FixWith(options, Declared)
    }

    ghost predicate Valid()
      reads this, base
    {
      "storage_name" in base.options && "value" in base.options
    }

    constructor (name: string, options: OptionMap, handler: StorageHandler?)
      ensures Valid() && fresh(base)
      ensures base.options == FixOptions(options) && base.storagehandler == handler
      ensures base.input == None && base.output == []
    {
      base := new Transformer(name, FixOptions(options), handler);
    }

    /** `storage[name] = eval(value)`; when the evaluation raises, nothing is stored. */
    method DoExecute(host: Host) returns (status: Status)
      requires Valid() && base.input.Some?
      modifies base`output, base.storagehandler
      ensures base.storagehandler == null ==> status == Error(NoStorageHandler) && base.output == old(base.output)
      ensures base.storagehandler != null ==>
        var result := host.Evaluate(base.options["value"]);
        && (result.None? ==>
              status.Raise? && base.storagehandler.storage == old(base.storagehandler.storage)
              && base.output == old(base.output))
        && (result.Some? ==>
              && status == Ok
              && base.storagehandler.storage
                 == old(base.storagehandler.storage)[base.options["storage_name"] := result.value]
              && base.output == old(base.output) + [base.input.value])
    {
      if base.storagehandler == null {
        return Error(NoStorageHandler);
      }
      var handler := base.storagehandler;
      var result := host.Evaluate(base.options["value"]);
      if result.None? {
        return Raise("eval");
      }
      handler.storage := handler.storage[base.options["storage_name"] := result.value];
      base.output := base.output + [base.input.value];
      status := Ok;
    }
  }

  /** Replaces the stored value with the evaluation of the configured expression, in which
      `{X}` stands for the text of the current value. */
  class UpdateStorageValue {
    static const Declared: Defaults := [("storage_name", StrV("unknown")), ("expression", StrV("int({X} + 1)"))]

    const base: Transformer

    /** `fix_options`. */
    static function FixOptions(options: OptionMap): (fixed: OptionMap)
      ensures Defaulted(options, Declared, fixed) && ApplyDefaults(fixed, Declared) == fixed
      ensures fixed["storage_name"] == if "storage_name" in options then options["storage_name"] else StrV("unknown")
      ensures fixed["expression"] == if "expression" in options then options["expression"] else StrV("int({X} + 1)")
    {
      FixWith(options, Declared)
    }

    ghost predicate Valid()
      reads this, base
    {
      "storage_name" in base.options && "expression" in base.options
    }

    constructor (name: string, options: OptionMap, handler: StorageHandler?)
      ensures Valid() && fresh(base)
      ensures base.options == FixOptions(options) && base.storagehandler == handler
      ensures base.input == None && base.output == []
    {
      base := new Transformer(name, FixOptions(options), handler);
    }

    /** The key the current value is read from: `str(name)`. (The new value is written under
        the name itself, which is the same key whenever the name is a string.) */
    static function ReadKey(host: Host, name: Value): (key: Value)
      ensures key.StrV?
      ensures name.StrV? ==> key == name
    {
      StrV(host.Str(name))
    }

    /** The stored value after an update of `current` with `expression`; None when the
        evaluation raises. */
    static function Updated(host: Host, expression: Value, current: Value): Option<Value>
    {
      host.eval(host.Substitute(expression, current))
    }

    /** A missing entry raises a KeyError (there is no default); a failing evaluation raises;
        in both cases storage and output stay as they were. */
    method DoExecute(host: Host) returns (status: Status)
      requires Valid() && base.input.Some?
      modifies base`output, base.storagehandler
      ensures base.storagehandler == null ==> status == Error(NoStorageHandler) && base.output == old(base.output)
      ensures base.storagehandler != null ==>
        var name := base.options["storage_name"];
        var before := old(base.storagehandler.storage);
        var key := ReadKey(host, name);
        var result := if key in before then Updated(host, base.options["expression"], before[key]) else None;
        && (result.None? ==>
              status.Raise? && base.storagehandler.storage == before && base.output == old(base.output))
        && (result.Some? ==>
              && status == Ok
              && base.storagehandler.storage == before[name := result.value]
              && base.output == old(base.output) + [base.input.value])
    {
      if base.storagehandler == null {
        return Error(NoStorageHandler);
      }
      var handler := base.storagehandler;
      var name := base.options["storage_name"];
      var key := ReadKey(host, name);
      if key !in handler.storage {
        return Raise("KeyError");
      }
      var result := Updated(host, base.options["expression"], handler.storage[key]);
      if result.None? {
        return Raise("eval");
      }
      handler.storage := handler.storage[name := result.value];
      base.output := base.output + [base.input.value];
      status := Ok;
    }

    /** With the default expression, the text evaluated for a stored integer n is
        `int(n + 1)`, written with n's decimal digits. */
    static lemma DefaultExpressionText(host: Host, n: int)
      ensures host.Substitute(StrV("int({X} + 1)"), IntV(n)) == "int(" + IntToString(n) + " + 1)"
    {
      assert "int({X} + 1)" == "int(" + Strings.Placeholder + " + 1)";
      Strings.SubstituteOnce("int(", " + 1)", IntToString(n));
    }
  }
}
