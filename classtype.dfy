/** The fixed registry of account class types: six numbered types, the
    first three of which are the balance-sheet types. */
module ClassType {

  const AssetClassType: int := 1
  const LiabilitiesClassType: int := 2
  const EquityClassType: int := 3
  const IncomeClassType: int := 4
  const COGSClassType: int := 5
  const ExpenseClassType: int := 6

  datatype AccountClassType = AccountClassType(id: int, name: string)

  /** The zero value a lookup of an unknown id gives. */
  const NoClassType := AccountClassType(0, "")

  const ClassTypes: map<int, AccountClassType> := map[
    AssetClassType := AccountClassType(AssetClassType, "Asset"),
    LiabilitiesClassType := AccountClassType(LiabilitiesClassType, "Liability"),
    EquityClassType := AccountClassType(EquityClassType, "Equity"),
    IncomeClassType := AccountClassType(IncomeClassType, "Income"),
    COGSClassType := AccountClassType(COGSClassType, "Cost of Good Solds"),
    ExpenseClassType := AccountClassType(ExpenseClassType, "Expense")
  ]

  /** A registry whose keys are exactly 1..n, so that type id sits at index
      id - 1 of a list of n entries. */
  ghost predicate Contiguous(registry: map<int, AccountClassType>) {
    forall id :: id in registry <==> 1 <= id <= |registry|
  }

  /** The balance-sheet class types: the ids from Asset up to Equity. */
  predicate IsBalanceSheetType(typeId: int) {
    0 < typeId <= EquityClassType
  }

  /** Looking a type up by id: the registered entry, or the zero value. */
  function ClassTypeByID(registry: map<int, AccountClassType>, id: int): (r: AccountClassType) {
    if id in registry then registry[id] else NoClassType
  }

  // ---- the registry's shape ----

  lemma RegistrySize()
    ensures |ClassTypes| == 6
  {
    var keys := {1, 2, 3, 4, 5, 6};
    assert ClassTypes.Keys == keys;
    assert |keys| == 6;
  }

  /** The keys are exactly 1..6, each entry carries its own key as id, and
      the names are the six type names in order. */
  lemma RegistryShape()
    ensures Contiguous(ClassTypes)
    ensures forall id :: id in ClassTypes ==> ClassTypes[id].id == id
    ensures ClassTypes[1].name == "Asset" && ClassTypes[2].name == "Liability"
    ensures ClassTypes[3].name == "Equity" && ClassTypes[4].name == "Income"
    ensures ClassTypes[5].name == "Cost of Good Solds" && ClassTypes[6].name == "Expense"
  {
    RegistrySize();
  }

  /** Among the registered types, the balance-sheet ones are exactly Asset,
      Liability and Equity. */
  lemma BalanceSheetTypes()
    ensures forall id :: id in ClassTypes ==>
              (IsBalanceSheetType(id) <==> ClassTypes[id].name in {"Asset", "Liability", "Equity"})
  {
    forall id | id in ClassTypes
      ensures IsBalanceSheetType(id) <==> ClassTypes[id].name in {"Asset", "Liability", "Equity"}
    {
      assert 1 <= id <= 6;
      if id == 4 {
        assert ClassTypes[id].name == "Income";
        assert "Income" != "Asset" && "Income" != "Liability" && "Income" != "Equity";
      } else if id == 5 {
        assert ClassTypes[id].name == "Cost of Good Solds";
        assert |"Cost of Good Solds"| == 18;
      } else if id == 6 {
        assert ClassTypes[id].name == "Expense";
        assert "Expense" != "Asset" && "Expense" != "Liability" && "Expense" != "Equity";
      }
    }
  }

  /** A lookup gives the entry whose id is the one asked for, and the zero
      value exactly when the id is not between 1 and 6. */
  lemma LookupByID(id: int)
    ensures 1 <= id <= 6 ==> ClassTypeByID(ClassTypes, id) == ClassTypes[id] && ClassTypes[id].id == id
    ensures ClassTypeByID(ClassTypes, id) == NoClassType <==> !(1 <= id <= 6)
  {
    RegistryShape();
  }
}
