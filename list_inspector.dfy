/**
 * Hive's list-inspector protocol over a Phoenix array: null-safe length and element access,
 * materialisation into a new list, and the composed type name. A Phoenix array is its sequence
 * of elements; its dimensions are the length of that sequence and `getElement(i)` is indexing.
 */
module ListInspector {
  import opened Wrappers

  /** Hive's categories of object inspectors. */
  datatype Category = PrimitiveCategory | ListCategory | MapCategory | StructCategory | UnionCategory

  /** The inspector of the list's elements: opaque metadata, of which only its type name and
      category are used. */
  datatype ObjectInspector = ObjectInspector(typeName: string, category: Category)

  /** A Java `byte`. */
  type JByte = b: int | -128 <= b < 128

  /** A Phoenix array value of some fixed dimension. */
  datatype PhoenixArray<T> = PhoenixArray(elements: seq<T>) {

    function Dimensions(): nat {
      |elements|
    }

    function GetElement(index: int): T
      requires 0 <= index < Dimensions()
    {
      elements[index]
    }
  }

  /** Hive's name for the list type (`serdeConstants.LIST_TYPE_NAME`). */
  const ListTypeName: string := "array"

  /** The type name of a list whose elements have type name `elementTypeName`. */
  function ListTypeNameOf(elementTypeName: string): (r: string)
    ensures |r| == |ListTypeName| + |elementTypeName| + 2
    ensures r[..|ListTypeName|] == ListTypeName
    ensures r[|ListTypeName|] == '<' && r[|r| - 1] == '>'
    ensures r[|ListTypeName| + 1..|r| - 1] == elementTypeName
  {
    ListTypeName + "<" + elementTypeName + ">"
  }

  /** The element type name inside a list type name, if `typeName` is one. */
  function ElementTypeNameOf(typeName: string): Option<string> {
    var n := |ListTypeName|;
    if |typeName| >= n + 2 && typeName[..n] == ListTypeName && typeName[n] == '<'
       && typeName[|typeName| - 1] == '>'
    then Some(typeName[n + 1..|typeName| - 1])
    else None
  }

  /** The element type name is recovered from every list type name. */
  lemma ListTypeNameRoundTrip(elementTypeName: string)
    ensures ElementTypeNameOf(ListTypeNameOf(elementTypeName)) == Some(elementTypeName)
  {
  }

  /** Two element type names give the same list type name only if they are equal. */
  lemma ListTypeNameInjective(e1: string, e2: string)
    requires ListTypeNameOf(e1) == ListTypeNameOf(e2)
    ensures e1 == e2
  {
  }

  /** PhoenixListObjectInspector: its three fields are set by the constructor and never change. */
  class PhoenixListObjectInspector<P> {
    const listElementObjectInspector: ObjectInspector
    const separator: JByte
    const lazyParams: P

    constructor (listElementObjectInspector: ObjectInspector, separator: JByte, lazyParams: P)
      ensures GetListElementObjectInspector() == listElementObjectInspector
      ensures GetSeparator() == separator
      ensures GetLazyParams() == lazyParams
      ensures GetCategory() == ListCategory
      ensures ElementTypeNameOf(GetTypeName()) == Some(listElementObjectInspector.typeName)
    {
      this.listElementObjectInspector := listElementObjectInspector;
      this.separator := separator;
      this.lazyParams := lazyParams;
    }

    function GetTypeName(): (r: string)
      ensures ElementTypeNameOf(r) == Some(listElementObjectInspector.typeName)
      ensures r[..|ListTypeName|] == ListTypeName
    {
      ListTypeNameRoundTrip(listElementObjectInspector.typeName);
      ListTypeNameOf(listElementObjectInspector.typeName)
    }

    function GetCategory(): Category {
      ListCategory
    }

    function GetListElementObjectInspector(): ObjectInspector {
      listElementObjectInspector
    }

    /** The element at `index` of a non-null array, `null` for a null one. The index is not
        checked here: keeping it in range is the caller's duty. */
    function GetListElement<T>(data: Option<PhoenixArray<T>>, index: int): (r: Option<T>)
      requires data.Some? ==> 0 <= index < data.value.Dimensions()
      ensures r.None? <==> data.None?
      ensures data.Some? ==> r.value == data.value.elements[index]
    {
      match data
      case None => None
      case Some(phoenixArray) => Some(phoenixArray.GetElement(index))
    }

    /** The dimensions of a non-null array, -1 for a null one. */
    function GetListLength<T>(data: Option<PhoenixArray<T>>): (n: int)
      ensures n == -1 <==> data.None?
      ensures data.Some? ==> n == |data.value.elements|
    {
      match data
      case None => -1
      case Some(phoenixArray) => phoenixArray.Dimensions()
    }

    /** A new list of every element of a non-null array, in order; `null` for a null one. */
    method GetList<T>(data: Option<PhoenixArray<T>>) returns (list: Option<seq<T>>)
      ensures list.None? <==> data.None?
      ensures list.Some? ==> |list.value| == GetListLength(data)
      ensures list.Some? ==>
        forall i :: 0 <= i < |list.value| ==> Some(list.value[i]) == GetListElement(data, i)
    {
      if data.None? {
        return None;
      }
      var phoenixArray := data.value;
      var valueLength := phoenixArray.Dimensions();
      var valueList: seq<T> := [];
      for i := 0 to valueLength
        invariant valueList == phoenixArray.elements[..i]
      {
        valueList := valueList + [phoenixArray.GetElement(i)];
      }
      assert valueList == phoenixArray.elements;
      return Some(valueList);
    }

    function GetSeparator(): JByte {
      separator
    }

    function GetLazyParams(): P {
      lazyParams
    }
  }
}
