/** The accounting use-case reader's class-type operations. They read a
    class-type registry of the use-case package's own, never the
    repository; that registry's definition is not part of this model, so
    it is a parameter here, required only to have the keys 1..n. */
module AccountingUsecase {
  import opened ClassType

  /** GetAccountClassTypeList: entry id - 1 holds type id. The source visits
      the map in Go's unspecified order, but each entry goes to the slot its
      key names, so any visiting order gives this list; the loop visits ids
      upwards. */
  method GetAccountClassTypeList(classTypes: map<int, AccountClassType>) returns (result: seq<AccountClassType>)
    requires Contiguous(classTypes)
    ensures |result| == |classTypes|
    ensures forall i :: 0 <= i < |result| ==> result[i] == classTypes[i + 1]
    ensures forall i :: 0 <= i < |result| ==> result[i] == GetAccountClassTypeByID(classTypes, i + 1)
  {
    result := seq(|classTypes|, _ => NoClassType);
    for id := 1 to |classTypes| + 1
      invariant |result| == |classTypes|
      invariant forall i :: 0 <= i < id - 1 ==> result[i] == classTypes[i + 1]
    {
      assert id in classTypes;
      result := result[id - 1 := classTypes[id]];
    }
  }

  /** GetAccountClassTypeByID: the registered entry, or the zero value for
      an id the registry does not hold. */
  function GetAccountClassTypeByID(classTypes: map<int, AccountClassType>, id: int): (r: AccountClassType)
    ensures id in classTypes ==> r == classTypes[id]
    ensures id !in classTypes ==> r == NoClassType
  {
    ClassTypeByID(classTypes, id)
  }

  /** Over a contiguous registry the lookup finds exactly the ids 1..n, and
      a listed entry is never the zero value when no entry is. */
  lemma LookupRange(classTypes: map<int, AccountClassType>, id: int)
    requires Contiguous(classTypes)
    requires NoClassType !in classTypes.Values
    ensures GetAccountClassTypeByID(classTypes, id) != NoClassType <==> 1 <= id <= |classTypes|
  {
    if 1 <= id <= |classTypes| {
      assert id in classTypes;
      assert classTypes[id] in classTypes.Values;
    }
  }

  /** With the repository's registry, the use-case lookup finds each of the
      six types under its own id. */
  lemma RepositoryRegistryLookup(id: int)
    ensures 1 <= id <= 6 ==> GetAccountClassTypeByID(ClassTypes, id).id == id
    ensures !(1 <= id <= 6) ==> GetAccountClassTypeByID(ClassTypes, id) == NoClassType
  {
    RegistryShape();
  }
}
