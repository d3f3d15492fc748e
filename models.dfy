/**
 * The user record shared by the store, the dashboard and the form. The
 * record type itself lives in a file that is not part of this model; its
 * shape is read off the places that use it: a numeric id, a name, an email
 * and one of the three roles the form offers.
 */
module Models {
  /** The closed set of roles the form's role selector offers. */
  datatype Role = Admin | Editor | Viewer

  /** A role as the user interface spells it (the string held in `User.role`). */
  function RoleName(r: Role): string
  {
    match r
    case Admin => "Admin"
    case Editor => "Editor"
    case Viewer => "Viewer"
  }

  datatype User = User(id: int, name: string, email: string, role: Role)

  /** A user record without its id (`Omit<User, 'id'>`): what the form emits. */
  datatype UserFields = UserFields(name: string, email: string, role: Role)

  /** The record `{ id, ...fields }`. */
  function WithId(id: int, f: UserFields): User
  {
    User(id, f.name, f.email, f.role)
  }
}
