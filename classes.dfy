/**
 * The app's classes, methods, fields and allocation sites as the analysis
 * sees them. Hash codes that come from code outside this model (an
 * instance's own hash, the hash of a class/method pair, the class's short
 * name) are carried as precomputed values.
 */
module Classes {
  import opened Wrappers

  datatype DalvikField = DalvikField(name: string)

  /** A method: its name, register and argument counts, and the size in code
      units of each of its instructions, in order. */
  datatype DalvikMethod = DalvikMethod(name: string, numReg: int, numArg: int, codeUnits: seq<nat>)

  /** A direct subclass as far as the entry-point tests need it: its type
      descriptor and its short name. */
  datatype ChildClass = ChildClass(ty: string, shortName: string)

  /** A class of the app (with its superclass chain, subclasses, fields and
      methods) or a class known only by name. `shortName` is the name used
      for manifest lookups. */
  datatype GeneralClass =
    | DalvikClass(ty: string, shortName: string, superClass: Option<GeneralClass>,
                  children: set<ChildClass>, exactFields: seq<DalvikField>,
                  fields: seq<DalvikField>, methods: seq<DalvikMethod>)
    | OtherClass(ty: string, shortName: string)

  /** A (class hash, method hash) pair. */
  datatype CMPair = CMPair(c: int, m: int)

  /** An allocation site: the class and method it occurs in, its program
      counter, the allocated type, whether it is a `new-instance` (rather than
      the result of an unknown call), its own hash code and the hash code of
      its (class, method) pair. */
  datatype DalvikInstance = DalvikInstance(c: int, m: int, pc: int, ty: string, isNewInstance: bool,
                                           hash: int, cmHash: int)
}
