/** `AdminController` of the order service: the admin check against the user
    service, and the two company-settings endpoints it guards. The user lookup is an
    input (its outcome). */
module AdminApi {
  import opened Wrappers
  import opened ApiResponses
  import opened AdminSettings

  /** What `GET <user service>/users/<id>` gave: a user (whose `isAdmin` may be
      missing, i.e. false), a body without a user, a response without a body (reading
      `.data` of it throws a `TypeError`), or a request failure. */
  datatype UserLookup = UserFound(isAdmin: bool) | NoUser | NoBody | LookupFailed(message: string)

  /** NestJS `ForbiddenException`: status 403 with its message. */
  datatype Forbidden = Forbidden(statusCode: int, message: string)

  /** Access is granted after a positive check, or without one when the check
      itself failed (the controller then warns on the console). */
  datatype Access = Verified | Unverified

  function UserServiceUrl(configured: Option<string>, userId: string): string {
    (if configured.Some? && configured.value != "" then configured.value else "http://e-commerce-user-service:3004")
      + "/users/" + userId
  }

  /** `checkAdmin`: forbidden exactly when the user service answered with no user or
      with a non-admin; every other failure lets the caller through. */
  function CheckAdmin(lookup: UserLookup): (r: Result<Access, Forbidden>)
    ensures r.Failure? <==> lookup.NoUser? || (lookup.UserFound? && !lookup.isAdmin)
    ensures r.Failure? ==> r.error == Forbidden(403, "Admin access required")
    ensures r == Success(Verified) <==> lookup.UserFound? && lookup.isAdmin
  {
    match lookup
    case UserFound(isAdmin) => if isAdmin then Success(Verified) else Failure(Forbidden(403, "Admin access required"))
    case NoUser => Failure(Forbidden(403, "Admin access required"))
    case NoBody => Success(Unverified)
    case LookupFailed(_) => Success(Unverified)
  }

  /** The check fails open: an unreachable user service never denies access. */
  lemma FailsOpen(message: string)
    ensures CheckAdmin(LookupFailed(message)).Success? && CheckAdmin(NoBody).Success?
  {
  }

  class AdminController {
    const adminService: AdminService

    constructor(adminService: AdminService)
      ensures this.adminService == adminService
    {
      this.adminService := adminService;
    }

    /** `GET /admin/company-settings`. */
    method GetCompanySettings(lookup: UserLookup) returns (r: Result<ApiResponse<CompanySettings>, Forbidden>)
      requires Valid(adminService.State())
      modifies adminService
      ensures CheckAdmin(lookup).Failure? ==>
        r == Failure(CheckAdmin(lookup).error) && adminService.State() == old(adminService.State())
      ensures CheckAdmin(lookup).Success? ==>
        var (st, settings) := GetResult(old(adminService.State()));
        adminService.State() == st && r == Success(ApiResponses.Success(settings, None))
    {
      var access := CheckAdmin(lookup);
      if access.Failure? {
        return Failure(access.error);
      }
      var settings := adminService.GetCompanySettings();
      r := Success(ApiResponses.Success(settings, None));
    }

    /** `PUT /admin/company-settings`. */
    method UpdateCompanySettings(lookup: UserLookup, updateDto: Dto)
      returns (r: Result<ApiResponse<CompanySettings>, Forbidden>)
      requires Valid(adminService.State())
      modifies adminService
      ensures CheckAdmin(lookup).Failure? ==>
        r == Failure(CheckAdmin(lookup).error) && adminService.State() == old(adminService.State())
      ensures CheckAdmin(lookup).Success? ==>
        var (st, settings) := UpdateResult(old(adminService.State()), updateDto);
        adminService.State() == st && r == Success(ApiResponses.Success(settings, None))
    {
      var access := CheckAdmin(lookup);
      if access.Failure? {
        return Failure(access.error);
      }
      var settings := adminService.UpdateCompanySettings(updateDto);
      r := Success(ApiResponses.Success(settings, None));
    }
  }
}
