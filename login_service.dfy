/**
 * The two login services. FileLogin checks the password stored in a user repository;
 * ServiceLogin stands for a remote authentication service and accepts any non-empty username
 * and password (the URL and API key only appear in its messages and name).
 */
module LoginServices {
  import opened Wrappers
  import opened UserRepositories

  datatype LoginService = FileLogin(repository: UserRepository) | ServiceLogin(serviceUrl: string, apiKey: string) {

    /** authenticate: reads the repository (for FileLogin) and changes nothing. */
    function Authenticate(username: string, password: string): (ok: bool)
      reads if this.FileLogin? then {this.repository} else {}
      ensures this.FileLogin? ==>
                (ok <==> exists i :: 0 <= i < |repository.users|
                                     && repository.users[i].username == username
                                     && repository.users[i].password == password
                                     && forall j :: 0 <= j < i ==> repository.users[j].username != username)
      ensures this.FileLogin? && !HasUsername(repository.users, username) ==> !ok
      ensures this.ServiceLogin? ==> (ok <==> username != "" && password != "")
    {
      match this
      case FileLogin(repo) =>
        (match UserNamed(repo.users, username)
         case None => false
         case Some(user) => user.password == password)
      case ServiceLogin(_, _) => username != "" && password != ""
    }

    /** get_service_name. */
    function GetServiceName(): (r: string)
      ensures this.FileLogin? ==> r == "File-Based Authentication"
      ensures this.ServiceLogin? ==>
                && |r| == |serviceUrl| + 25
                && r[..24] == "Service Authentication ("
                && r[24..|r| - 1] == serviceUrl
                && r[|r| - 1] == ')'
    {
      match this
      case FileLogin(_) => "File-Based Authentication"
      case ServiceLogin(url, _) => "Service Authentication (" + url + ")"
    }
  }

  /** When usernames are unique, FileLogin accepts exactly the stored username/password pairs. */
  lemma FileLoginWithUniqueUsers(repository: UserRepository, username: string, password: string)
    requires UniqueUsernames(repository.users)
    ensures FileLogin(repository).Authenticate(username, password)
            <==> exists i :: 0 <= i < |repository.users| && repository.users[i].username == username
                             && repository.users[i].password == password
  {
    var users := repository.users;
    if exists i :: 0 <= i < |users| && users[i].username == username && users[i].password == password {
      var i :| 0 <= i < |users| && users[i].username == username && users[i].password == password;
      assert forall j :: 0 <= j < i ==> users[j].username != username;
    }
  }

  /** The two kinds of service never share a name. */
  lemma ServiceNamesDiffer(repository: UserRepository, url: string, key: string)
    ensures FileLogin(repository).GetServiceName() != ServiceLogin(url, key).GetServiceName()
  {
    assert FileLogin(repository).GetServiceName()[0] == 'F';
    assert ServiceLogin(url, key).GetServiceName()[0] == 'S';
  }
}
