/**
 * The `check` command of bugi-cli (bugi/crates/bugi-cli/src/main.rs): walks the
 * payloads of a plugin binary, and in its first export section classifies the
 * exports that carry the called-function prefix and the description export.
 * Reading the file and printing the result are I/O and are left to the caller.
 */
module Cli {
  import opened Wrappers
  import opened WasmParser

  const CALLED_FUNC_PREFIX: string := "__bugi_v0_called_func_"
  const PROVIDE_DESC_NAME: string := "__bugi_v0_provide_desc"
  const NOT_A_FUNCTION: string := "this is not a function"

  datatype ExportedFuncData =
    | FuncOk(name: string)
    | FuncErr(name: string, msg: string)

  datatype CheckResult = CheckResult(exportedFuncs: seq<ExportedFuncData>, providedDesc: Option<ExportedFuncData>)

  const EMPTY_RESULT: CheckResult := CheckResult([], None)

  /** `str::starts_with`. */
  predicate StartsWith(s: string, prefix: string) {
    |prefix| <= |s| && s[..|prefix|] == prefix
  }

  /** An entry justified by an export: a function's entry is its name without the prefix, any other kind is an error entry. */
  predicate Justifies(e: Export, d: ExportedFuncData) {
    (d.FuncOk? ==> e == Export(CALLED_FUNC_PREFIX + d.name, Func)) &&
    (d.FuncErr? ==> e.name == d.name && StartsWith(e.name, CALLED_FUNC_PREFIX) && e.kind != Func && d.msg == NOT_A_FUNCTION)
  }

  /** The entry an export carrying the called-function prefix contributes. */
  function FuncEntry(e: Export): (d: ExportedFuncData)
    requires StartsWith(e.name, CALLED_FUNC_PREFIX)
    ensures Justifies(e, d)
  {
    assert e.name == CALLED_FUNC_PREFIX + e.name[|CALLED_FUNC_PREFIX|..];
    if e.kind == Func then FuncOk(e.name[|CALLED_FUNC_PREFIX|..]) else FuncErr(e.name, NOT_A_FUNCTION)
  }

  /** What one export adds to the result. */
  function Classify(r: CheckResult, e: Export): CheckResult
  {
    if StartsWith(e.name, CALLED_FUNC_PREFIX) then
      r.(exportedFuncs := r.exportedFuncs + [FuncEntry(e)])
    else if e.name == PROVIDE_DESC_NAME then
      r.(providedDesc := Some(if e.kind == Func then FuncOk(e.name) else FuncErr(e.name, NOT_A_FUNCTION)))
    else r
  }

  /** The exports of one section, in order; an entry that fails to parse aborts the command. */
  function ScanExports(r: CheckResult, es: seq<Result<Export, string>>): Result<CheckResult, string>
    decreases |es|
  {
    if |es| == 0 then Ok(r)
    else if es[0].Err? then Err(es[0].error)
    else ScanExports(Classify(r, es[0].value), es[1..])
  }

  /** The command's outcome: a payload that fails to parse aborts it; only the first export section is scanned. */
  function Check(payloads: Parsed): Result<CheckResult, string>
    decreases |payloads|
  {
    if |payloads| == 0 then Ok(EMPTY_RESULT)
    else if payloads[0].Err? then Err(payloads[0].error)
    else if payloads[0].value.ExportSection? then ScanExports(EMPTY_RESULT, payloads[0].value.exports)
    else Check(payloads[1..])
  }

  /** `check_command`: the loop over payloads and, inside the first export section, over its exports. */
  method CheckCommand(payloads: Parsed) returns (r: Result<CheckResult, string>)
    ensures r == Check(payloads)
  {
    var i := 0;
    while i < |payloads|
      invariant 0 <= i <= |payloads|
      invariant Check(payloads) == Check(payloads[i..])
    {
      assert payloads[i..][1..] == payloads[i + 1..];
      if payloads[i].Err? {
        return Err(payloads[i].error);
      }
      if payloads[i].value.ExportSection? {
        var es := payloads[i].value.exports;
        var result := EMPTY_RESULT;
        var j := 0;
        while j < |es|
          invariant 0 <= j <= |es|
          invariant ScanExports(EMPTY_RESULT, es) == ScanExports(result, es[j..])
        {
          assert es[j..][1..] == es[j + 1..];
          if es[j].Err? {
            return Err(es[j].error);
          }
          result := Classify(result, es[j].value);
          j := j + 1;
        }
        return Ok(result);
      }
      i := i + 1;
    }
    return Ok(EMPTY_RESULT);
  }

  /** The number of parsed exports that carry the called-function prefix. */
  function CountPrefixed(es: seq<Result<Export, string>>): nat
    decreases |es|
  {
    if |es| == 0 then 0
    else (if Prefixed(es[0]) then 1 else 0) + CountPrefixed(es[1..])
  }

  /** Whether a parsed export carries the called-function prefix. */
  predicate Prefixed(p: Result<Export, string>) {
    p.Ok? && StartsWith(p.value.name, CALLED_FUNC_PREFIX)
  }

  /** The entries of the prefixed exports, in export order. */
  function Entries(es: seq<Result<Export, string>>): (ds: seq<ExportedFuncData>)
    ensures |ds| == CountPrefixed(es)
    decreases |es|
  {
    if |es| == 0 then []
    else (if Prefixed(es[0]) then [FuncEntry(es[0].value)] else []) + Entries(es[1..])
  }

  /** A successful scan keeps what was there and appends the prefixed exports' entries, in export order. */
  lemma {:induction false} ScanExportsEntries(r: CheckResult, es: seq<Result<Export, string>>)
    requires ScanExports(r, es).Ok?
    ensures ScanExports(r, es).value.exportedFuncs == r.exportedFuncs + Entries(es)
    decreases |es|
  {
    if |es| > 0 {
      var r1 := Classify(r, es[0].value);
      ScanExportsEntries(r1, es[1..]);
      assert r1.exportedFuncs == r.exportedFuncs + (if Prefixed(es[0]) then [FuncEntry(es[0].value)] else []);
    }
  }

  /**
   * Entry k comes from the k-th prefixed export: the export at index i justifies it
   * and exactly k prefixed exports precede it. Entries therefore follow export order,
   * one per prefixed export.
   */
  lemma {:induction false} EntriesJustified(es: seq<Result<Export, string>>, k: nat)
    requires k < |Entries(es)|
    ensures exists i :: 0 <= i < |es| && Prefixed(es[i]) && Justifies(es[i].value, Entries(es)[k]) && CountPrefixed(es[..i]) == k
    decreases |es|
  {
    var head := if Prefixed(es[0]) then [FuncEntry(es[0].value)] else [];
    assert Entries(es) == head + Entries(es[1..]);
    assert es[..0] == [];
    if Prefixed(es[0]) && k == 0 {
      assert Prefixed(es[0]) && Justifies(es[0].value, Entries(es)[0]) && CountPrefixed(es[..0]) == 0;
    } else {
      EntriesJustified(es[1..], k - |head|);
      var j :| 0 <= j < |es[1..]| && Prefixed(es[1..][j]) && Justifies(es[1..][j].value, Entries(es[1..])[k - |head|]) &&
               CountPrefixed(es[1..][..j]) == k - |head|;
      assert es[..j + 1][0] == es[0] && es[..j + 1][1..] == es[1..][..j];
      assert CountPrefixed(es[..j + 1]) == k;
      assert Prefixed(es[j + 1]) && Justifies(es[j + 1].value, Entries(es)[k]);
    }
  }

  /** The description export that counts is the last one in the section; without one the field stays empty. */
  lemma {:induction false} ScanExportsDescription(r: CheckResult, es: seq<Result<Export, string>>)
    requires ScanExports(r, es).Ok?
    ensures var d := ScanExports(r, es).value.providedDesc;
      (forall i :: 0 <= i < |es| ==> es[i].Ok? ==> es[i].value.name != PROVIDE_DESC_NAME) ==> d == r.providedDesc
    ensures var d := ScanExports(r, es).value.providedDesc;
      forall i :: 0 <= i < |es| && es[i].Ok? && es[i].value.name == PROVIDE_DESC_NAME &&
                  (forall j :: i < j < |es| ==> es[j].Ok? ==> es[j].value.name != PROVIDE_DESC_NAME) ==>
        d == Some(if es[i].value.kind == Func then FuncOk(PROVIDE_DESC_NAME) else FuncErr(PROVIDE_DESC_NAME, NOT_A_FUNCTION))
    decreases |es|
  {
    if |es| > 0 {
      var r1 := Classify(r, es[0].value);
      ScanExportsDescription(r1, es[1..]);
      assert ScanExports(r, es) == ScanExports(r1, es[1..]);
      assert PROVIDE_DESC_NAME[10] != CALLED_FUNC_PREFIX[10];
      forall i | 0 < i < |es| ensures es[i] == es[1..][i - 1] { }
    }
  }

  /** Payloads after the first export section, or after a payload that fails, are never looked at. */
  lemma {:induction false} CheckStopsAtFirstSection(payloads: Parsed, i: nat, more: Parsed)
    requires i < |payloads| && (payloads[i].Err? || payloads[i].value.ExportSection?)
    ensures Check(payloads + more) == Check(payloads)
    decreases i
  {
    assert (payloads + more)[0] == payloads[0];
    if i > 0 && payloads[0].Ok? && !payloads[0].value.ExportSection? {
      CheckStopsAtFirstSection(payloads[1..], i - 1, more);
      assert (payloads + more)[1..] == payloads[1..] + more;
    }
  }

  /** A binary without export sections or failures yields the empty result. */
  lemma {:induction false} CheckWithoutExports(payloads: Parsed)
    requires forall i :: 0 <= i < |payloads| ==> payloads[i].Ok? && !payloads[i].value.ExportSection?
    ensures Check(payloads) == Ok(EMPTY_RESULT)
    decreases |payloads|
  {
    if |payloads| > 0 {
      CheckWithoutExports(payloads[1..]);
    }
  }
}
