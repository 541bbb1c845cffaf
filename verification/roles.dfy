/** src/Utils/roles.py: role lookups by name that raise `ValueError`. */
module Roles {
  import opened Wrappers
  import opened Platform
  import Environment

  const TeacherRoleName: string := "Lehrer"
  const StudentRoleName: string := "Schüler"

  /** `__get_role_by_name`: the first role of the guild with that name. */
  function GetRoleByName(roles: seq<Role>, name: string): (r: Result<Role>)
    ensures r.Ok? ==> exists k :: 0 <= k < |roles| && roles[k] == r.value && r.value.name == name
                                  && forall j :: 0 <= j < k ==> roles[j].name != name
    ensures r.Err? <==> forall j :: 0 <= j < |roles| ==> roles[j].name != name
    ensures r.Err? ==> r.error == ValueError("Role '" + name + "' not found")
  {
    match FindRoleByName(roles, name)
    case Some(role) => Ok(role)
    case None => Err(ValueError("Role '" + name + "' not found"))
  }

  function GetTeacherRole(roles: seq<Role>): (r: Result<Role>)
    ensures r.Ok? ==> r.value in roles && r.value.name == TeacherRoleName
    ensures r.Err? <==> forall j :: 0 <= j < |roles| ==> roles[j].name != TeacherRoleName
    ensures r.Err? ==> r.error.ValueError?
  {
    GetRoleByName(roles, TeacherRoleName)
  }

  function GetStudentRole(roles: seq<Role>): (r: Result<Role>)
    ensures r.Ok? ==> r.value in roles && r.value.name == StudentRoleName
    ensures r.Err? <==> forall j :: 0 <= j < |roles| ==> roles[j].name != StudentRoleName
    ensures r.Err? ==> r.error.ValueError?
  {
    GetRoleByName(roles, StudentRoleName)
  }

  /** `role in member.roles` for the role the lookup returns: the lookup
      succeeds exactly when a role of that name exists, and the member holds
      the returned role exactly when it holds the first role of that name. */
  lemma RoleHeldIff(m: Member, roles: seq<Role>, name: string)
    ensures GetRoleByName(roles, name).Ok? <==> Environment.RoleExists(roles, name)
    ensures GetRoleByName(roles, name).Ok? ==>
              (GetRoleByName(roles, name).value.id in m.roles <==> Environment.HoldsFirst(m, roles, name))
  {
    var r := GetRoleByName(roles, name);
    if r.Ok? {
      var k0 :| 0 <= k0 < |roles| && roles[k0] == r.value && r.value.name == name
                && forall j :: 0 <= j < k0 ==> roles[j].name != name;
      assert Environment.FirstNamed(roles, name, k0);
      forall k | Environment.FirstNamed(roles, name, k)
        ensures k == k0
      {
        assert !(k < k0) && !(k0 < k);
      }
    }
  }
}
