/** The parts of the structure application that the handlers inspect: the
    model class of an object, described by the base-class tests the handlers
    make on it, a generic (content type, object id) reference to one
    object, and the calendar month an estimate belongs to. */
module Structure {

  /** A Django model class. Each flag answers one `isinstance` / `issubclass`
      test that the handlers make; a class may pass several of them. */
  datatype ModelClass = ModelClass(
    name: string,
    isResourceMixin: bool,  // structure ResourceMixin
    isCustomer: bool,       // structure Customer
    isProject: bool,        // structure Project
    isService: bool,        // structure Service
    isPayable: bool)        // cost_tracking PayableMixin

  /** A generic reference to one object: its model and its primary key. */
  datatype ScopeRef = ScopeRef(model: ModelClass, pk: nat)

  /** A calendar month: the (year, month) bucket of a price estimate. */
  datatype Period = Period(year: int, month: int)
}
