/** The backoffice user page
    (src/components/backoffice/BackofficeUserComponent.tsx): a server-paged
    user list, a staff-creation form and a role-assignment dialog. */
module BackofficeUsers {
  import opened Wrappers
  import opened Js
  import Pagination

  /** src/type/backoffice/BackOfficeUserDto.ts. The page guards against a
      missing `id` (`selectedUser.id == null`), so the id is optional here. */
  datatype UserDto = UserDto(
    id: Option<int>, name: string, surname: string, bornDate: string, username: string,
    email: string, phoneNumber: Option<string>, avatarUrl: Option<string>, role: string)

  datatype CreateStaffDto = CreateStaffDto(
    name: string, surname: string, bornDate: string, username: string,
    email: string, password: string, role: string)

  /** One page of `/users/dto/search`: `number` is the page index the server answered. */
  datatype UserPage = UserPage(content: seq<UserDto>, totalPages: int, number: int)

  datatype UserRequest =
    | SearchUsers(query: string, page: int, size: nat)   // GET   /users/dto/search
    | CreateStaff(body: CreateStaffDto)                  // POST  /admin/users
    | AssignRole(userId: int, role: string)              // PATCH /admin/users/{id}/role

  function EmptyStaff(): (f: CreateStaffDto)
    ensures f.name == "" && f.surname == "" && f.bornDate == "" && f.username == ""
    ensures f.email == "" && f.password == "" && f.role == "STAFF"
  {
    CreateStaffDto("", "", "", "", "", "", "STAFF")
  }

  const NotSelected := "Utente non selezionato correttamente"

  /** The request `handleAssign` may send: none without a selected user or
      with a null id; otherwise a PATCH of the selected role. An id of 0 is
      accepted, the test being `== null`. */
  function AssignRequest(selected: Option<UserDto>, role: string): (r: Option<UserRequest>)
    ensures r.None? <==> selected.None? || selected.value.id.None?
    ensures r.Some? ==> r.value == AssignRole(selected.value.id.value, role)
  {
    if selected.None? || selected.value.id.None? then None
    else Some(AssignRole(selected.value.id.value, role))
  }

  class UsersPage {
    var users: seq<UserDto>
    var loading: bool
    var error: Option<string>
    var showCreate: bool
    var showAssign: bool
    var selectedUser: Option<UserDto>
    var newStaff: CreateStaffDto
    var assignRole: string
    var query: string
    var page: int
    var totalPages: int
    var sent: seq<UserRequest>

    constructor ()
      ensures users == [] && !loading && error == None && !showCreate && !showAssign && selectedUser == None
      ensures newStaff == EmptyStaff() && assignRole == "USER" && query == "" && page == 0 && totalPages == 0
      ensures sent == []
    {
      users, loading, error, showCreate, showAssign, selectedUser := [], false, None, false, false, None;
      newStaff, assignRole, query, page, totalPages, sent := EmptyStaff(), "USER", "", 0, 0, [];
    }

    /** `loadUsers(pageNumber, q)`: a success takes the list, the page index
        and the page count from the answer. */
    method LoadUsers(pageNumber: int, q: string, res: Response<UserPage>)
      modifies this
      ensures sent == old(sent) + [SearchUsers(q, pageNumber, 20)]
      ensures !loading
      ensures res.Ok? ==> users == res.payload.content && page == res.payload.number
                          && totalPages == res.payload.totalPages && error == None
      ensures !res.Ok? ==> users == old(users) && page == old(page) && totalPages == old(totalPages)
                           && error == Some("Impossibile caricare gli utenti")
      ensures showCreate == old(showCreate) && showAssign == old(showAssign) && selectedUser == old(selectedUser)
      ensures newStaff == old(newStaff) && assignRole == old(assignRole) && query == old(query)
    {
      loading := true;
      error := None;
      sent := sent + [SearchUsers(q, pageNumber, 20)];
      if res.Ok? {
        users := res.payload.content;
        page := res.payload.number;
        totalPages := res.payload.totalPages;
      } else {
        error := Some("Impossibile caricare gli utenti");
      }
      loading := false;
    }

    method ClearCreateForm()
      modifies this
      ensures newStaff == EmptyStaff()
      ensures users == old(users) && loading == old(loading) && error == old(error) && showCreate == old(showCreate)
      ensures showAssign == old(showAssign) && selectedUser == old(selectedUser) && assignRole == old(assignRole)
      ensures query == old(query) && page == old(page) && totalPages == old(totalPages) && sent == old(sent)
    {
      newStaff := EmptyStaff();
    }

    method OpenCreate()
      modifies this
      ensures newStaff == EmptyStaff() && showCreate
      ensures users == old(users) && loading == old(loading) && error == old(error)
      ensures showAssign == old(showAssign) && selectedUser == old(selectedUser) && assignRole == old(assignRole)
      ensures query == old(query) && page == old(page) && totalPages == old(totalPages) && sent == old(sent)
    {
      ClearCreateForm();
      showCreate := true;
    }

    /** `openAssign(u)`: the dialog starts from the user's current role. */
    method OpenAssign(u: UserDto)
      modifies this
      ensures selectedUser == Some(u) && assignRole == u.role && showAssign
      ensures users == old(users) && loading == old(loading) && error == old(error) && showCreate == old(showCreate)
      ensures newStaff == old(newStaff) && query == old(query) && page == old(page)
      ensures totalPages == old(totalPages) && sent == old(sent)
    {
      selectedUser := Some(u);
      assignRole := u.role;
      showAssign := true;
    }

    /** `handleCreate`: posts the staff form; a success closes it and asks
        for a reload of the current page (`reload`). */
    method HandleCreate(res: Response<()>) returns (reload: bool)
      modifies this
      ensures sent == old(sent) + [CreateStaff(old(newStaff))]
      ensures reload <==> res.Ok?
      ensures res.Ok? ==> !showCreate && error == None
      ensures !res.Ok? ==> showCreate == old(showCreate) && error == Some("Errore durante la creazione dello staff")
      ensures users == old(users) && loading == old(loading) && showAssign == old(showAssign)
      ensures selectedUser == old(selectedUser) && newStaff == old(newStaff) && assignRole == old(assignRole)
      ensures query == old(query) && page == old(page) && totalPages == old(totalPages)
    {
      error := None;
      sent := sent + [CreateStaff(newStaff)];
      if res.Ok? {
        showCreate := false;
        reload := true;
      } else {
        error := Some("Errore durante la creazione dello staff");
        reload := false;
      }
    }

    /** `handleAssign`: the guard, then the PATCH. */
    method HandleAssign(res: Response<()>) returns (reload: bool)
      modifies this
      ensures AssignRequest(old(selectedUser), old(assignRole)).None? ==>
                !reload && sent == old(sent) && error == Some(NotSelected) && showAssign == old(showAssign)
      ensures AssignRequest(old(selectedUser), old(assignRole)).Some? ==>
                sent == old(sent) + [AssignRequest(old(selectedUser), old(assignRole)).value]
                && (reload <==> res.Ok?)
                && (res.Ok? ==> !showAssign && error == None)
                && (!res.Ok? ==> showAssign == old(showAssign) && error == Some("Errore durante l'assegnazione del ruolo"))
      ensures users == old(users) && loading == old(loading) && showCreate == old(showCreate)
      ensures selectedUser == old(selectedUser) && newStaff == old(newStaff) && assignRole == old(assignRole)
      ensures query == old(query) && page == old(page) && totalPages == old(totalPages)
    {
      var request := AssignRequest(selectedUser, assignRole);
      if request.None? {
        error := Some(NotSelected);
        return false;
      }
      error := None;
      sent := sent + [request.value];
      if res.Ok? {
        showAssign := false;
        reload := true;
      } else {
        error := Some("Errore durante l'assegnazione del ruolo");
        reload := false;
      }
    }

    /** The `for` loop building one pagination button per page; a click on
        button i calls `loadUsers(i, query)`. */
    method PaginationLinks() returns (items: seq<Pagination.PageLink>)
      ensures |items| == if totalPages > 0 then totalPages else 0
      ensures forall i :: 0 <= i < |items| ==> items[i].target == i && items[i].shown == i + 1
      ensures forall i :: 0 <= i < |items| ==> (items[i].active <==> i == page)
    {
      items := Pagination.PaginationItems(totalPages, page);
    }
  }

  /** A client: a role change for a user whose id is missing is refused. */
  method AssignWithoutId(u: UserDto)
    requires u.id.None?
  {
    var p := new UsersPage();
    p.OpenAssign(u);
    var reload := p.HandleAssign(Ok(()));
    assert p.sent == [] && !reload;
    assert p.error == Some(NotSelected);
  }
}
