/** The user records that the admin queries and the admin seeding read and write.
    models/User.js is not part of this model: only the fields those callers name
    appear here, and `role` takes the two values they use. */
module Users {
  import opened Wrappers
  import opened Documents

  datatype Role = UserRole | AdminRole

  datatype User = User(
    id: ObjectId,
    name: string,
    email: string,
    password: Option<string>,
    mobile: string,
    gender: string,
    role: Role,
    createdAt: Timestamp)

  /** A user document as `.select('-password')` returns it: it has no password field at all. */
  datatype PublicUser = PublicUser(
    id: ObjectId,
    name: string,
    email: string,
    mobile: string,
    gender: string,
    role: Role,
    createdAt: Timestamp)

  /** `.select('-password')`: every field but the password is kept as stored. */
  function WithoutPassword(u: User): (p: PublicUser)
    ensures p.id == u.id && p.name == u.name && p.email == u.email && p.mobile == u.mobile
    ensures p.gender == u.gender && p.role == u.role && p.createdAt == u.createdAt
  {
    PublicUser(u.id, u.name, u.email, u.mobile, u.gender, u.role, u.createdAt)
  }

  /** The filter `{ email }`. */
  function HasEmail(email: string): User -> bool {
    (u: User) => u.email == email
  }

  /** The filter `{ role }`. */
  function HasRole(role: Role): User -> bool {
    (u: User) => u.role == role
  }
}
