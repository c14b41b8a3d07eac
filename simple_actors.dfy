/** The actors whose step is a single transformation of the input token: PassThrough,
    MathExpression and DeleteFile. */
module SimpleActors {
  import opened Wrappers
  import opened Numbers
  import opened Values
  import opened Options
  import opened FlowBase
  import Strings

  /** Forwards its input token. */
  class PassThrough {
    const base: Transformer

    constructor (name: string, options: OptionMap)
      ensures fresh(base) && base.options == options
      ensures base.input == None && base.output == [] && base.storagehandler == null
    {
      base := new Transformer(name, options, null);
    }

    method DoExecute() returns (status: Status)
      requires base.input.Some?
      modifies base`output
      ensures status == Ok && base.output == old(base.output) + [base.input.value]
    {
      base.output := base.output + [base.input.value];
      status := Ok;
    }
  }

  /** Evaluates the configured expression with `{X}` replaced by the text of the payload,
      and forwards the result in a new token. */
  class MathExpression {
    static const Declared: Defaults := [("expression", StrV("{X}"))]

    const base: Transformer

    /** `fix_options`. */
    static function FixOptions(options: OptionMap): (fixed: OptionMap)
      ensures Defaulted(options, Declared, fixed) && ApplyDefaults(fixed, Declared) == fixed
      ensures fixed["expression"] == if "expression" in options then options["expression"] else StrV("{X}")
    {
      FixWith(options, Declared)
    }

    ghost predicate Valid()
      reads this, base
    {
      "expression" in base.options
    }

    constructor (name: string, options: OptionMap)
      ensures Valid() && fresh(base) && base.options == FixOptions(options)
      ensures base.input == None && base.output == [] && base.storagehandler == null
    {
      base := new Transformer(name, FixOptions(options), null);
    }

    method DoExecute(host: Host) returns (status: Status)
      requires Valid() && base.input.Some?
      modifies base`output
      ensures var result := host.eval(host.Substitute(base.options["expression"], base.input.value.payload));
        && (result.Some? ==> status == Ok && base.output == old(base.output) + [Token(result.value)])
        && (result.None? ==> status.Raise? && base.output == old(base.output))
    {
      var result := host.eval(host.Substitute(base.options["expression"], base.input.value.payload));
      if result.None? {
        return Raise("eval");
      }
      base.output := base.output + [Token(result.value)];
      status := Ok;
    }

    /** The default expression `{X}` evaluates the text of the payload itself. */
    static lemma DefaultExpressionIsPayload(host: Host, payload: Value)
      ensures host.Substitute(StrV("{X}"), payload) == host.Str(payload)
    {
      Strings.SubstituteOnce("", "", host.Str(payload));
      assert "" + Strings.Placeholder + "" == "{X}";
      assert "" + host.Str(payload) + "" == host.Str(payload);
    }

    /** `1 + {X}` with the integer payload n evaluates the text `1 + n`. */
    static lemma AddOneText(host: Host, n: int)
      ensures host.Substitute(StrV("1 + {X}"), IntV(n)) == "1 + " + IntToString(n)
    {
      Strings.SubstituteOnce("1 + ", "", IntToString(n));
      assert "1 + " + Strings.Placeholder + "" == "1 + {X}";
      assert "1 + " + IntToString(n) + "" == "1 + " + IntToString(n);
    }
  }

  /** Deletes the incoming file when its name matches the configured regular expression;
      the pattern ".*" deletes without consulting the regular-expression engine. */
  class DeleteFile {
    static const Declared: Defaults := [("regexp", StrV(".*"))]

    const base: Transformer

    /** `fix_options`. */
    static function FixOptions(options: OptionMap): (fixed: OptionMap)
      ensures Defaulted(options, Declared, fixed) && ApplyDefaults(fixed, Declared) == fixed
      ensures fixed["regexp"] == if "regexp" in options then options["regexp"] else StrV(".*")
    {
      FixWith(options, Declared)
    }

    ghost predicate Valid()
      reads this, base
    {
      "regexp" in base.options
    }

    constructor (name: string, options: OptionMap)
      ensures Valid() && fresh(base) && base.options == FixOptions(options)
      ensures base.input == None && base.output == [] && base.storagehandler == null
    {
      base := new Transformer(name, FixOptions(options), null);
    }

    /** Whether `fname` is to be deleted under `pattern`; None when the pattern does not compile. */
    static function ShouldDelete(host: Host, pattern: string, fname: string): (r: Option<bool>)
      ensures pattern == ".*" ==> r == Some(true)
      ensures pattern != ".*" ==> r == host.regexMatch(pattern, fname)
    {
      if pattern == ".*" then Some(true) else host.regexMatch(pattern, fname)
    }

    /** With the default options every file is to be deleted, whatever the regular-expression
        engine would say. */
    static lemma DefaultPatternDeletesAll(host: Host, options: OptionMap, fname: string)
      requires "regexp" !in options
      ensures ShouldDelete(host, host.Str(FixOptions(options)["regexp"]), fname) == Some(true)
    {
    }

    /** The file is removed exactly when the decision says so; removing anything but a
        regular file raises, as does a pattern that does not compile. */
    method DoExecute(host: Host, fs: FileSystem) returns (status: Status)
      requires Valid() && base.input.Some?
      modifies base`output, fs`files
      ensures var fname := host.Str(base.input.value.payload);
        var decision := ShouldDelete(host, host.Str(base.options["regexp"]), fname);
        && (decision.None? ==> status.Raise? && fs.files == old(fs.files) && base.output == old(base.output))
        && (decision == Some(false) ==>
              status == Ok && fs.files == old(fs.files) && base.output == old(base.output) + [base.input.value])
        && (decision == Some(true) && fname in old(fs.files) ==>
              status == Ok && fs.files == old(fs.files) - {fname} && base.output == old(base.output) + [base.input.value])
        && (decision == Some(true) && fname !in old(fs.files) ==>
              status.Raise? && fs.files == old(fs.files) && base.output == old(base.output))
    {
      var fname := host.Str(base.input.value.payload);
      var decision := ShouldDelete(host, host.Str(base.options["regexp"]), fname);
      if decision.None? {
        return Raise("re.error");
      }
      if decision.value {
        var removed := fs.Remove(fname);
        if !removed {
          return Raise("OSError");
        }
      }
      base.output := base.output + [base.input.value];
      status := Ok;
    }
  }
}
