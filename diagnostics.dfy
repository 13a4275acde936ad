/** The diagnostics sink: every `print_msg` call becomes a record appended
    to a log, and `error_count` / `warning_count` are counters beside it. */
module Diagnostics {

  datatype Severity = Error | Warning

  datatype Radix = Bin | Oct | Dec | Hex

  /** One kind per message text of the source. */
  datatype Message =
    | LabelTooLong
    | InvalidDigits(radix: Radix)
    | ExpectedRadixPrefix
    | IntTooLarge
    | ExpectedIntOrLabel
    | ExpectedRegisterName
    | ExpectedRegister
    | ExpectedComma
    | ExpectedRegOrInt
    | ExpectedIntOrName
    | ExpectedName
    | ExpectedInt
    | ExpectedRegOrName
    | TooLargeFor8Bits
    | TooLargeFor4Bits
    | LowAddress
    | ExpectedDefOrMnemonic
    | MultipleDefinition(name: string)
    | UndefinedReference(name: string)

  datatype Diag = Diag(severity: Severity, line: int, col: int, msg: Message)

  datatype Diags = Diags(errors: nat, warnings: nat, log: seq<Diag>)

  const NoDiags := Diags(0, 0, [])

  /** `print_msg(ERROR, ...)` followed by `++error_count`. */
  function AddError(d: Diags, line: int, col: int, m: Message): (r: Diags)
    ensures r.errors == d.errors + 1 && r.warnings == d.warnings
    ensures r.log == d.log + [Diag(Error, line, col, m)]
  {
    Diags(d.errors + 1, d.warnings, d.log + [Diag(Error, line, col, m)])
  }

  /** `print_msg(WARNING, ...)` followed by `++warning_count`. */
  function AddWarning(d: Diags, line: int, col: int, m: Message): (r: Diags)
    ensures r.errors == d.errors && r.warnings == d.warnings + 1
    ensures r.log == d.log + [Diag(Warning, line, col, m)]
  {
    Diags(d.errors, d.warnings + 1, d.log + [Diag(Warning, line, col, m)])
  }

  /** `print_msg(ERROR, ...)` with no counter change. */
  function PrintOnly(d: Diags, line: int, col: int, m: Message): (r: Diags)
    ensures r.errors == d.errors && r.warnings == d.warnings
    ensures r.log == d.log + [Diag(Error, line, col, m)]
  {
    d.(log := d.log + [Diag(Error, line, col, m)])
  }

  /** From `d1` to `d2` the counters only grew. */
  predicate CountsGrow(d1: Diags, d2: Diags) {
    d1.errors <= d2.errors && d1.warnings <= d2.warnings
  }
}
