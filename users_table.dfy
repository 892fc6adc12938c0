/** The user table of the admin area. */
module UsersTable {
  import opened Text
  import opened Lists
  import opened Tables

  datatype UserRow = UserRow(id: int, name: string, email: string, role: string,
                             status: string, projects: int, joined: string)

  /** The five users the table starts with. */
  function SeedUsers(): (r: seq<UserRow>)
    ensures |r| == 5
  {
    [ UserRow(1, "John Doe", "john@example.com", "Admin", "Active", 12, "2023-05-12"),
      UserRow(2, "Jane Smith", "jane@example.com", "User", "Active", 5, "2023-06-18"),
      UserRow(3, "Robert Johnson", "robert@example.com", "User", "Inactive", 3, "2023-04-22"),
      UserRow(4, "Emily Davis", "emily@example.com", "Editor", "Active", 8, "2023-07-05"),
      UserRow(5, "Michael Wilson", "michael@example.com", "User", "Active", 2, "2023-08-14") ]
  }

  /** The search term occurs, ignoring case, in the name, the email or the role. */
  predicate Matches(u: UserRow, term: string)
  {
    ContainsIgnoreCase(u.name, term) || ContainsIgnoreCase(u.email, term) || ContainsIgnoreCase(u.role, term)
  }

  /** `filteredUsers`: the matching users, in their original order. */
  function FilteredUsers(users: seq<UserRow>, term: string): (r: seq<UserRow>)
    ensures IsSubseq(r, users)
    ensures forall u :: u in r <==> u in users && Matches(u, term)
    ensures forall u :: multiset(r)[u] == if Matches(u, term) then multiset(users)[u] else 0
  {
    Filter(users, u => Matches(u, term))
  }

  /** `currentUsers`: the rows on page `page` of the filtered list. */
  function CurrentUsers(users: seq<UserRow>, term: string, page: int): (r: seq<UserRow>)
    ensures page >= 1 ==> |r| <= PageSize
    ensures page > TotalPages(|FilteredUsers(users, term)|) ==> r == []
  {
    PageRows(FilteredUsers(users, term), page)
  }

  /** Pages 1 to `totalPages` of the filtered users give back exactly the filtered users. */
  lemma PagesCoverFiltered(users: seq<UserRow>, term: string)
    ensures PagesUpTo(FilteredUsers(users, term), TotalPages(|FilteredUsers(users, term)|))
         == FilteredUsers(users, term)
  {
    PagesPartition(FilteredUsers(users, term));
  }

  /** The role badge: Admin purple, Editor blue, any other role gray. */
  function RoleColor(role: string): (c: Color)
    ensures c == Purple <==> role == "Admin"
    ensures c == Blue <==> role == "Editor"
    ensures c == Gray <==> role != "Admin" && role != "Editor"
  {
    if role == "Admin" then Purple else if role == "Editor" then Blue else Gray
  }

  /** The status badge: Active green, any other status red. */
  function StatusColor(status: string): (c: Color)
    ensures c == Green <==> status == "Active"
    ensures c == Red <==> status != "Active"
  {
    if status == "Active" then Green else Red
  }

  /** The avatar letter, `name.charAt(0)`: the first character, or nothing for an empty name. */
  function AvatarInitial(name: string): (r: string)
    ensures |r| <= 1
    ensures name == "" <==> r == ""
    ensures name != "" ==> StartsWith(name, r) && r == [name[0]]
  {
    if name == "" then "" else name[..1]
  }
}
