/** Functions that write an owner through one of their arguments. */
module OutOwners {
  /** How a call writes an owner through one pointer-to-pointer argument: always or on success only,
      which results mean success, and whether the owner may be null. */
  datatype OutOwner = OutOwner(writeOnSuccess: bool, successNonzero: bool, nullable: bool)
}
