/** The directory side of an import: an LDAP object as the import engine sees it. */
module Directory {
  import opened Wrappers

  /**
   * A directory object read during an import run. Only what the import core
   * looks at is kept: its relative distinguished name (for log lines), its
   * converted GUID (None when the object has none), whether it is an Active
   * Directory object, and the values of its `userAccountControl` attribute,
   * already converted to integers (empty when the attribute is absent).
   */
  datatype DirectoryObject = DirectoryObject(
    rdn: string,
    convertedGuid: Option<string>,
    isActiveDirectory: bool,
    userAccountControl: seq<int>
  )
}
