/** The records the API returns: one user, and the page envelope that holds them. */
module Models {

  /** The company a user works for; every field is "" when the API leaves it out. */
  datatype Company = Company(name: string, department: string, title: string)

  datatype User = User(
    id: int,
    firstName: string,
    lastName: string,
    email: string,
    phone: string,
    username: string,
    age: int,
    gender: string,
    company: Company)

  /** One page of users. Nothing ties `total`, `skip` or `limit` to the number of users. */
  datatype UsersResponse = UsersResponse(users: seq<User>, total: int, skip: int, limit: int)
}
