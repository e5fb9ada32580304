/**
 * The parameter container: an insertion-ordered list plus a map keyed by the
 * parameter's safe name. The safe-name function is a construction argument,
 * so every fact below holds for any name-sanitising function used
 * consistently for insertion and lookup.
 */
module Registry {
  import opened Events

  class ParameterRegistry {
    const makeSafeName: string -> string
    var parameterList: seq<Parameter>
    var parameterMap: map<string, Parameter>

    /** The list and the map describe the same parameters, one per safe name. */
    ghost predicate Valid()
      reads this
    {
      && (forall i, j :: 0 <= i < j < |parameterList| ==>
            makeSafeName(parameterList[i].name) != makeSafeName(parameterList[j].name))
      && (forall k :: k in parameterMap ==>
            makeSafeName(parameterMap[k].name) == k && parameterMap[k] in parameterList)
      && (forall p :: p in parameterList ==>
            makeSafeName(p.name) in parameterMap && parameterMap[makeSafeName(p.name)] == p)
      && |parameterMap| == |parameterList|
    }

    constructor (makeSafeName: string -> string)
      ensures Valid() && this.makeSafeName == makeSafeName
      ensures parameterList == [] && parameterMap == map[]
    {
      this.makeSafeName := makeSafeName;
      parameterList := [];
      parameterMap := map[];
    }

    /** Number of parameters in the set; the map holds as many safe names. */
    function Size(): (n: int)
      reads this
      requires Valid()
      ensures n == |parameterList| && n == |parameterMap|
    {
      |parameterList|
    }

    /**
     * Lookup by index; the index must be below the size. The parameter found
     * is also what its own name resolves to.
     */
    function GetAt(index: int): (p: Parameter)
      reads this
      requires Valid()
      requires 0 <= index < |parameterList|
      ensures p == parameterList[index]
      ensures makeSafeName(p.name) in parameterMap && parameterMap[makeSafeName(p.name)] == p
    {
      parameterList[index]
    }

    /**
     * Lookup by name through its safe name: a registered parameter with the
     * same safe name, or null exactly when there is none.
     */
    function GetByName(name: string): (p: Parameter?)
      reads this
      requires Valid()
      ensures p != null ==> p in parameterList && makeSafeName(p.name) == makeSafeName(name)
      ensures p == null <==> forall q :: q in parameterList ==> makeSafeName(q.name) != makeSafeName(name)
    {
      var key := makeSafeName(name);
      if key in parameterMap then parameterMap[key] else null
    }

    /** `operator[](int)`: the same lookup as `GetAt`. */
    function AtIndex(i: int): (p: Parameter)
      reads this
      requires Valid()
      requires 0 <= i < |parameterList|
      ensures p == GetAt(i) && p == parameterList[i]
    {
      GetAt(i)
    }

    /** `operator[](name)`: the same lookup as `GetByName`. */
    function AtName(name: string): (p: Parameter?)
      reads this
      requires Valid()
      ensures p == GetByName(name)
      ensures p == null <==> forall q :: q in parameterList ==> makeSafeName(q.name) != makeSafeName(name)
    {
      GetByName(name)
    }

    /**
     * Register a parameter. Null, or a parameter whose name already resolves,
     * is refused with a null result and nothing changes; otherwise the
     * parameter is appended at index `old size`, keyed by its safe name.
     */
    method Add(parameter: Parameter?) returns (r: Parameter?)
      requires Valid()
      modifies this
      ensures Valid()
      ensures parameter == null || old(GetByName(parameter.name)) != null ==>
                r == null && parameterList == old(parameterList) && parameterMap == old(parameterMap)
      ensures parameter != null && old(GetByName(parameter.name)) == null ==>
                && r == parameter
                && parameterList == old(parameterList) + [parameter]
                && parameterMap == old(parameterMap)[makeSafeName(parameter.name) := parameter]
                && GetByName(parameter.name) == parameter
    {
      if parameter == null || GetByName(parameter.name) != null {
        return null;
      }
      parameterMap := parameterMap[makeSafeName(parameter.name) := parameter];
      parameterList := parameterList + [parameter];
      r := parameter;
    }

    /** Forget every parameter: afterwards the size is 0 and no name resolves. */
    method Clear()
      requires Valid()
      modifies this
      ensures Valid()
      ensures parameterList == [] && parameterMap == map[]
      ensures forall name :: GetByName(name) == null
    {
      parameterList := [];
      parameterMap := map[];
    }
  }
}
