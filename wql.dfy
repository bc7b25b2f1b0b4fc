/**
 * The string constants of DeviceAuth.h: the WQL query templates, the WMI class
 * and property names, the match/mismatch filter formulas, and the table that
 * turns each public check into a (class, property, filter) configuration.
 */
module Wql {
  import opened Wrappers

  const Language := "WQL"
  const QueryBasic := "SELECT * FROM %s"
  const QueryWhere := "SELECT * FROM %s WHERE %s"
  const PathCimv2 := "root\\CIMV2"
  const ClassBios := "Win32_BIOS"
  const ClassBaseBoard := "Win32_BaseBoard"
  const ClassDisk := "Win32_DiskDrive"
  const ClassOs := "Win32_OperatingSystem"
  const PropInterface := "InterfaceType"
  const PropPnpDeviceId := "PNPDeviceID"
  const PropSerialNumber := "SerialNumber"
  const PropValueIde := "IDE"
  const FormulaMatch := "%s = '%s'"
  const FormulaMismatch := "%s <> '%s'"

  /**
   * The `%s` substitution that StringCchPrintf performs on the templates above:
   * each `%s` takes the next argument, every other character is copied. The
   * templates carry no other directive. A `%s` with no argument left renders
   * nothing; every template here is always given as many arguments as it has
   * directives.
   */
  function Format(template: string, args: seq<string>): string
    decreases |template|
  {
    if |template| == 0 then ""
    else if |template| >= 2 && template[0] == '%' && template[1] == 's' then
      (if |args| == 0 then Format(template[2..], args)
       else args[0] + Format(template[2..], args[1..]))
    else [template[0]] + Format(template[1..], args)
  }

  /** Text containing no `%`, which Format copies unchanged. */
  predicate Plain(text: string) {
    forall i :: 0 <= i < |text| ==> text[i] != '%'
  }

  lemma {:induction false} FormatPlainPrefix(prefix: string, rest: string, args: seq<string>)
    requires Plain(prefix)
    ensures Format(prefix + rest, args) == prefix + Format(rest, args)
    decreases |prefix|
  {
    if |prefix| == 0 {
      assert prefix + rest == rest;
    } else {
      var text := prefix + rest;
      assert text[0] == prefix[0] != '%';
      assert text[1..] == prefix[1..] + rest;
      assert Format(text, args) == [text[0]] + Format(text[1..], args);
      assert Plain(prefix[1..]) by {
        forall i | 0 <= i < |prefix[1..]| ensures prefix[1..][i] != '%' {
          assert prefix[1..][i] == prefix[i + 1];
        }
      }
      FormatPlainPrefix(prefix[1..], rest, args);
      assert [prefix[0]] + prefix[1..] == prefix;
    }
  }

  lemma FormatDirective(rest: string, args: seq<string>)
    requires |args| > 0
    ensures Format("%s" + rest, args) == args[0] + Format(rest, args[1..])
  {
    var text := "%s" + rest;
    assert text[0] == '%' && text[1] == 's';
    assert text[2..] == rest;
  }

  lemma BasicTemplateParts()
    ensures QueryBasic == "SELECT * FROM " + ("%s" + "")
  {
  }

  /** WQUERY_BASIC expands to "SELECT * FROM " followed by the class name. */
  lemma {:induction false} BasicTemplateExpansion(className: string)
    ensures Format(QueryBasic, [className]) == "SELECT * FROM " + className
  {
    BasicTemplateParts();
    FormatPlainPrefix("SELECT * FROM ", "%s" + "", [className]);
    FormatDirective("", [className]);
  }

  lemma WhereTemplateParts()
    ensures QueryWhere == "SELECT * FROM " + ("%s" + (" WHERE " + ("%s" + "")))
  {
  }

  lemma {:induction false} ClauseExpansion(where: string)
    ensures Format(" WHERE " + ("%s" + ""), [where]) == " WHERE " + where
  {
    FormatPlainPrefix(" WHERE ", "%s" + "", [where]);
    FormatDirective("", [where]);
  }

  lemma {:induction false} ClassAndClauseExpansion(className: string, where: string)
    ensures Format("%s" + (" WHERE " + ("%s" + "")), [className, where])
         == className + (" WHERE " + where)
  {
    FormatDirective(" WHERE " + ("%s" + ""), [className, where]);
    assert [className, where][1..] == [where];
    ClauseExpansion(where);
  }

  lemma {:induction false} SelectExpansion(className: string, where: string)
    ensures Format("SELECT * FROM " + ("%s" + (" WHERE " + ("%s" + ""))), [className, where])
         == "SELECT * FROM " + (className + (" WHERE " + where))
  {
    FormatPlainPrefix("SELECT * FROM ", "%s" + (" WHERE " + ("%s" + "")), [className, where]);
    ClassAndClauseExpansion(className, where);
  }

  /** WQUERY_WHERE expands to the class name and the where-clause around " WHERE ". */
  lemma {:induction false} WhereTemplateExpansion(className: string, where: string)
    ensures Format(QueryWhere, [className, where])
         == "SELECT * FROM " + className + " WHERE " + where
  {
    WhereTemplateParts();
    SelectExpansion(className, where);
    ConcatAssociates("SELECT * FROM ", className, " WHERE ", where);
  }

  lemma ConcatAssociates(a: string, b: string, c: string, d: string)
    ensures a + (b + (c + d)) == a + b + c + d
  {
  }

  /** The comparison operator of a filter clause: WFORMULA_MATCH or WFORMULA_MISSMATCH. */
  datatype Op = Equal | NotEqual

  /** A where-clause `property op 'value'`. */
  datatype Filter = Filter(property: string, op: Op, value: string)

  function Formula(op: Op): string {
    match op
    case Equal => FormulaMatch
    case NotEqual => FormulaMismatch
  }

  /**
   * The where-clause text `property op 'value'`: WFORMULA_MATCH or
   * WFORMULA_MISSMATCH filled with the property and the value, which is quoted
   * but not escaped.
   */
  function RenderFilter(f: Filter): (clause: string)
    ensures clause == Format(Formula(f.op), [f.property, f.value])
  {
    FormulaParts();
    match f.op
    case Equal =>
      FormulaShape(" = '", f.property, f.value);
      f.property + " = '" + f.value + "'"
    case NotEqual =>
      FormulaShape(" <> '", f.property, f.value);
      f.property + " <> '" + f.value + "'"
  }

  lemma FormulaParts()
    ensures FormulaMatch == "%s" + (" = '" + ("%s" + "'"))
    ensures FormulaMismatch == "%s" + (" <> '" + ("%s" + "'"))
  {
  }

  lemma {:induction false} FormulaShape(opText: string, property: string, value: string)
    requires Plain(opText)
    ensures Format("%s" + (opText + ("%s" + "'")), [property, value])
         == property + opText + value + "'"
  {
    FormatDirective(opText + ("%s" + "'"), [property, value]);
    assert [property, value][1..] == [value];
    FormatPlainPrefix(opText, "%s" + "'", [value]);
    FormatDirective("'", [value]);
    assert Format("'", []) == "'" + Format("", []);
  }

  /** The seven public checks of CHardwareAuth and CSoftwareAuth. */
  datatype Check =
    | ComputerSerial   // AuthComputerSerialNumber
    | BaseBoard        // AuthBaseBoardSerialNumber
    | SystemDisk       // AuthSystemDisk
    | SystemDiskEx     // AuthSystemDiskEx
    | ExternalDisk     // AuthExternalDisk
    | ExternalDiskEx   // AuthExternalDiskEx
    | WindowsSerial    // AuthWindowsSerialNumber
  {
    /** Declared on CHardwareAuth rather than CSoftwareAuth. */
    predicate IsHardware() { !WindowsSerial? }

    predicate IsDisk() { SystemDisk? || SystemDiskEx? || ExternalDisk? || ExternalDiskEx? }
  }

  /** The configuration a check passes to the shared query-and-match routine. */
  datatype CheckSpec = CheckSpec(className: string, property: string, filter: Option<Filter>)

  function SpecOf(check: Check): (s: CheckSpec)
    ensures s.filter.Some? <==> check.IsDisk()
    ensures s.filter.Some? ==>
        s.className == ClassDisk && s.filter.value.property == PropInterface
        && s.filter.value.value == PropValueIde
    ensures s.filter.Some? ==>
        (s.filter.value.op == Equal <==> (check.SystemDisk? || check.SystemDiskEx?))
    ensures s.property == PropPnpDeviceId <==> (check.SystemDiskEx? || check.ExternalDiskEx?)
    ensures s.property != PropPnpDeviceId ==> s.property == PropSerialNumber
    ensures s.className == ClassOs <==> !check.IsHardware()
  {
    var internalBus := Filter(PropInterface, Equal, PropValueIde);
    var externalBus := Filter(PropInterface, NotEqual, PropValueIde);
    match check
    case ComputerSerial => CheckSpec(ClassBios, PropSerialNumber, None)
    case BaseBoard => CheckSpec(ClassBaseBoard, PropSerialNumber, None)
    case SystemDisk => CheckSpec(ClassDisk, PropSerialNumber, Some(internalBus))
    case SystemDiskEx => CheckSpec(ClassDisk, PropPnpDeviceId, Some(internalBus))
    case ExternalDisk => CheckSpec(ClassDisk, PropSerialNumber, Some(externalBus))
    case ExternalDiskEx => CheckSpec(ClassDisk, PropPnpDeviceId, Some(externalBus))
    case WindowsSerial => CheckSpec(ClassOs, PropSerialNumber, None)
  }
}
