/** What a function does to its parameters and with its result. */
module Effects {
  datatype ReturnEffect = NoReturn | Owned | BorrowFromArg | UnknownReturn
  datatype ParamEffect = NoEffect | Borrows | TakesOwnership | Destroys | UnknownEffect
}
