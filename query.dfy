/**
 * Query rendering of CDeviceAuthManager::GetClassObject and of the where-clause
 * buffers of the disk checks: a template is filled with StringCchPrintf into a
 * buffer of MAX_LOADSTRING characters, whose result code is ignored, so text that
 * does not fit is cut off rather than rejected. MAX_LOADSTRING is a parameter
 * (`capacity`) here, since its definition is not part of this model.
 */
module Query {
  import opened Wrappers
  import opened Wql

  /** A buffer size in characters: MAX_LOADSTRING is positive. */
  type Capacity = n: int | 0 < n witness 1

  /** STRSAFE_MAX_CCH, the longest string StringCchLength accepts. */
  const StrsafeMaxCch := 2147483647

  /**
   * What StringCchPrintf leaves in a buffer of `capacity` characters: the text,
   * cut to `capacity - 1` characters so that the terminator fits.
   */
  function Truncate(text: string, capacity: int): (r: string)
    requires capacity > 0
    ensures |r| < capacity && |r| <= |text|
    ensures r == text[..|r|]
    ensures |text| < capacity ==> r == text
    ensures |text| >= capacity ==> |r| == capacity - 1
  {
    if |text| < capacity then text else text[..capacity - 1]
  }

  /**
   * The query text before it is cut to fit the buffer: WQUERY_BASIC filled with
   * the class name when the where-clause is empty, WQUERY_WHERE filled with the
   * class name and the clause otherwise (RenderQueryFollowsTemplates).
   */
  function RenderQuery(className: string, where: string): string {
    if |where| == 0 then "SELECT * FROM " + className
    else "SELECT * FROM " + className + " WHERE " + where
  }

  /** The rendered query is exactly what StringCchPrintf makes of the header's two templates. */
  lemma RenderQueryFollowsTemplates(className: string, where: string)
    ensures |where| == 0 ==> RenderQuery(className, where) == Format(QueryBasic, [className])
    ensures |where| > 0 ==> RenderQuery(className, where) == Format(QueryWhere, [className, where])
  {
    BasicTemplateExpansion(className);
    WhereTemplateExpansion(className, where);
  }

  /** The where-clause can be read back from the query text: different clauses give different queries. */
  lemma RenderQueryInjective(className: string, where1: string, where2: string)
    requires RenderQuery(className, where1) == RenderQuery(className, where2)
    ensures where1 == where2
  {
    var q := RenderQuery(className, where1);
    var n := |"SELECT * FROM " + className + " WHERE "|;
    if |where1| > 0 && |where2| > 0 {
      assert where1 == q[n..];
      assert where2 == q[n..];
    }
  }

  /** The where-clause buffer of a check: empty when the check has no filter. */
  function WhereFor(filter: Option<Filter>, capacity: int): (w: string)
    requires capacity > 0
    ensures |w| < capacity
    ensures filter.None? ==> w == ""
    ensures filter.Some? ==> var clause := RenderFilter(filter.value);
      |w| <= |clause| && w == clause[..|w|] && (|clause| < capacity ==> w == clause)
  {
    match filter
    case None => ""
    case Some(f) => Truncate(RenderFilter(f), capacity)
  }

  /** The text GetClassObject hands to ExecQuery: the rendered query, cut to fit lpQuery. */
  function QueryText(className: string, where: string, capacity: int): (q: string)
    requires capacity > 0
    ensures |q| < capacity && |q| <= |RenderQuery(className, where)|
    ensures q == RenderQuery(className, where)[..|q|]
    ensures |RenderQuery(className, where)| < capacity ==> q == RenderQuery(className, where)
  {
    Truncate(RenderQuery(className, where), capacity)
  }

  /**
   * The query text a check hands to ExecQuery: a prefix of its rendered query,
   * and the query with the whole clause when that fits the buffer.
   */
  function QueryFor(spec: CheckSpec, capacity: int): (q: string)
    requires capacity > 0
    ensures |q| < capacity
    ensures spec.filter.None? ==>
      |q| <= |RenderQuery(spec.className, "")| && q == RenderQuery(spec.className, "")[..|q|]
    ensures spec.filter.None? && |RenderQuery(spec.className, "")| < capacity ==>
      q == RenderQuery(spec.className, "")
    ensures spec.filter.Some? && |RenderQuery(spec.className, RenderFilter(spec.filter.value))| < capacity ==>
      q == RenderQuery(spec.className, RenderFilter(spec.filter.value))
  {
    QueryText(spec.className, WhereFor(spec.filter, capacity), capacity)
  }

  /**
   * However small the buffer, a filtered check sends a prefix of its full query:
   * the clause is cut first, then the query built from it.
   */
  lemma QueryForFilteredPrefix(className: string, property: string, filter: Filter, capacity: int)
    requires capacity > 0
    ensures var q := QueryFor(CheckSpec(className, property, Some(filter)), capacity);
      var full := RenderQuery(className, RenderFilter(filter));
      |q| <= |full| && q == full[..|q|]
  {
    var clause := RenderFilter(filter);
    var w := WhereFor(Some(filter), capacity);
    CutClausePrefix(className, clause, w);
    var part := RenderQuery(className, w);
    var q := QueryText(className, w, capacity);
    assert q == part[..|q|];
    assert part == RenderQuery(className, clause)[..|part|];
  }

  /** A query rendered with a prefix of a clause is a prefix of the query rendered with the whole clause. */
  lemma CutClausePrefix(className: string, clause: string, w: string)
    requires |w| <= |clause| && w == clause[..|w|]
    ensures var part := RenderQuery(className, w); var full := RenderQuery(className, clause);
      |part| <= |full| && part == full[..|part|]
  {
    var basic := "SELECT * FROM " + className;
    if |w| == 0 {
      assert RenderQuery(className, clause)[..|basic|] == basic;
    } else {
      var head := basic + " WHERE ";
      assert RenderQuery(className, w) == head + w;
      assert RenderQuery(className, clause) == head + clause;
      assert (head + clause)[..|head| + |w|] == head + clause[..|w|];
    }
  }

  /**
   * What ExecQuery receives with and without a where-clause differs exactly when
   * the buffer keeps the first character after the class name: once the query is
   * cut, a filtered query can collide with the unfiltered one.
   */
  lemma TruncatedQueriesDiffer(className: string, where: string, capacity: int)
    requires capacity > 0 && |where| > 0
    ensures QueryText(className, "", capacity) != QueryText(className, where, capacity)
        <==> capacity > |"SELECT * FROM " + className| + 1
  {
    var basic := RenderQuery(className, "");
    var filtered := RenderQuery(className, where);
    var n := |basic|;
    assert filtered[..n] == basic;
    if capacity > n + 1 {
      assert QueryText(className, "", capacity) == basic;
      assert |QueryText(className, where, capacity)| > n;
    } else {
      assert QueryText(className, "", capacity) == basic[..capacity - 1];
      assert QueryText(className, where, capacity) == filtered[..capacity - 1];
      assert filtered[..capacity - 1] == basic[..capacity - 1];
    }
  }

  /** An unfiltered check whose query fits sends it whole. */
  lemma UnfilteredQueryText(className: string, property: string, capacity: int)
    requires capacity > |"SELECT * FROM " + className|
    ensures QueryFor(CheckSpec(className, property, None), capacity) == "SELECT * FROM " + className
  {
  }

  /** A filtered check whose query fits sends the query with the whole clause. */
  lemma FilteredQueryText(className: string, property: string, filter: Filter, capacity: int)
    requires capacity > |"SELECT * FROM " + className + " WHERE " + RenderFilter(filter)|
    ensures QueryFor(CheckSpec(className, property, Some(filter)), capacity)
         == "SELECT * FROM " + className + " WHERE " + RenderFilter(filter)
  {
  }

  /** The query of an internal-disk check, when it fits. */
  lemma SystemDiskQueryText(property: string, capacity: int)
    requires capacity >= 59
    ensures QueryFor(CheckSpec(ClassDisk, property, Some(Filter(PropInterface, Equal, PropValueIde))),
                     capacity)
         == "SELECT * FROM " + ClassDisk + " WHERE " + PropInterface + " = '" + PropValueIde + "'"
  {
    var f := Filter(PropInterface, Equal, PropValueIde);
    var clause := PropInterface + " = '" + PropValueIde + "'";
    assert RenderFilter(f) == clause;
    assert |"SELECT * FROM " + ClassDisk + " WHERE " + clause| < 59;
    FilteredQueryText(ClassDisk, property, f, capacity);
    ConcatAssociates("SELECT * FROM " + ClassDisk + " WHERE ", PropInterface, " = '", PropValueIde + "'");
  }

  /** The query of an external-disk check, when it fits. */
  lemma ExternalDiskQueryText(property: string, capacity: int)
    requires capacity >= 59
    ensures QueryFor(CheckSpec(ClassDisk, property, Some(Filter(PropInterface, NotEqual, PropValueIde))),
                     capacity)
         == "SELECT * FROM " + ClassDisk + " WHERE " + PropInterface + " <> '" + PropValueIde + "'"
  {
    var f := Filter(PropInterface, NotEqual, PropValueIde);
    var clause := PropInterface + " <> '" + PropValueIde + "'";
    assert RenderFilter(f) == clause;
    assert |"SELECT * FROM " + ClassDisk + " WHERE " + clause| < 59;
    FilteredQueryText(ClassDisk, property, f, capacity);
    ConcatAssociates("SELECT * FROM " + ClassDisk + " WHERE ", PropInterface, " <> '", PropValueIde + "'");
  }

  /** With a buffer of at least 59 characters every check sends its query uncut. */
  lemma CheckQueryText(check: Check, capacity: int)
    requires capacity >= 59
    ensures QueryFor(SpecOf(check), capacity) == match check
      case ComputerSerial => "SELECT * FROM " + ClassBios
      case BaseBoard => "SELECT * FROM " + ClassBaseBoard
      case SystemDisk | SystemDiskEx =>
        "SELECT * FROM " + ClassDisk + " WHERE " + PropInterface + " = '" + PropValueIde + "'"
      case ExternalDisk | ExternalDiskEx =>
        "SELECT * FROM " + ClassDisk + " WHERE " + PropInterface + " <> '" + PropValueIde + "'"
      case WindowsSerial => "SELECT * FROM " + ClassOs
  {
    match check
    case ComputerSerial => UnfilteredQueryText(ClassBios, PropSerialNumber, capacity);
    case BaseBoard => UnfilteredQueryText(ClassBaseBoard, PropSerialNumber, capacity);
    case WindowsSerial => UnfilteredQueryText(ClassOs, PropSerialNumber, capacity);
    case SystemDisk | SystemDiskEx => SystemDiskQueryText(SpecOf(check).property, capacity);
    case ExternalDisk | ExternalDiskEx => ExternalDiskQueryText(SpecOf(check).property, capacity);
  }

  /**
   * The match and mismatch clauses on the same property and value stay distinct
   * after truncation exactly when the buffer keeps the first operator character.
   */
  lemma TruncatedFiltersDiffer(property: string, value: string, capacity: int)
    requires capacity > 0
    ensures Truncate(RenderFilter(Filter(property, Equal, value)), capacity)
         != Truncate(RenderFilter(Filter(property, NotEqual, value)), capacity)
        <==> capacity > |property| + 2
  {
    var eq := RenderFilter(Filter(property, Equal, value));
    var ne := RenderFilter(Filter(property, NotEqual, value));
    var k := |property| + 1;
    assert eq == property + " = '" + value + "'";
    assert ne == property + " <> '" + value + "'";
    assert eq[k] == '=' && ne[k] == '<';
    assert eq[..k] == ne[..k] == property + " ";
    TruncatedTextsDiffer(eq, ne, k, capacity);
  }

  /**
   * Two texts that agree before position k and differ at it stay distinct after
   * truncation exactly when the buffer keeps position k.
   */
  lemma TruncatedTextsDiffer(a: string, b: string, k: nat, capacity: int)
    requires capacity > 0 && k < |a| && k < |b|
    requires a[..k] == b[..k] && a[k] != b[k]
    ensures Truncate(a, capacity) != Truncate(b, capacity) <==> capacity > k + 1
  {
    var t1 := Truncate(a, capacity);
    var t2 := Truncate(b, capacity);
    if capacity > k + 1 {
      assert t1[k] != t2[k];
    } else {
      assert t1 == a[..k][..capacity - 1];
      assert t2 == b[..k][..capacity - 1];
    }
  }
}
