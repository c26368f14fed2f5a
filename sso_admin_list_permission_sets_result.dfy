/**
 * ListPermissionSetsProvisionedToAccountResult: the IAM Identity Center result
 * holding a page of permission set ARNs, a next-page token and a request ID. Its
 * fields carry no "has been set" flags.
 */
module SsoAdmin {

  class ListPermissionSetsProvisionedToAccountResult {
    var nextToken: string
    var permissionSets: seq<string>
    var requestId: string

    /**
     * The default constructor: strings and the vector start empty.
     */
    constructor ()
      ensures nextToken == "" && permissionSets == [] && requestId == ""
    {
      nextToken := "";
      permissionSets := [];
      requestId := "";
    }

    /** SetNextToken: stores the value and changes nothing else. */
    method SetNextToken(value: string)
      modifies this`nextToken
      ensures nextToken == value
    {
      nextToken := value;
    }

    /** WithNextToken: SetNextToken, returning this same object so that calls chain. */
    method WithNextToken(value: string) returns (self: ListPermissionSetsProvisionedToAccountResult)
      modifies this`nextToken
      ensures self == this
      ensures nextToken == value
    {
      SetNextToken(value);
      return this;
    }

    /** SetPermissionSets: stores the value and changes nothing else. */
    method SetPermissionSets(value: seq<string>)
      modifies this`permissionSets
      ensures permissionSets == value
    {
      permissionSets := value;
    }

    /** WithPermissionSets: SetPermissionSets, returning this same object so that calls chain. */
    method WithPermissionSets(value: seq<string>) returns (self: ListPermissionSetsProvisionedToAccountResult)
      modifies this`permissionSets
      ensures self == this
      ensures permissionSets == value
    {
      SetPermissionSets(value);
      return this;
    }

    /** SetRequestId: stores the value and changes nothing else. */
    method SetRequestId(value: string)
      modifies this`requestId
      ensures requestId == value
    {
      requestId := value;
    }

    /** WithRequestId: SetRequestId, returning this same object so that calls chain. */
    method WithRequestId(value: string) returns (self: ListPermissionSetsProvisionedToAccountResult)
      modifies this`requestId
      ensures self == this
      ensures requestId == value
    {
      SetRequestId(value);
      return this;
    }

    /** AddPermissionSets: appends one element at the end, returning this same object. */
    method AddPermissionSets(value: string) returns (self: ListPermissionSetsProvisionedToAccountResult)
      modifies this`permissionSets
      ensures self == this
      ensures permissionSets == old(permissionSets) + [value]
    {
      permissionSets := permissionSets + [value];
      return this;
    }
  }

  /** Collecting a page of results: each appended ARN follows the earlier ones, in call order. */
  method CollectPage(result: ListPermissionSetsProvisionedToAccountResult, arns: seq<string>)
    modifies result
    ensures result.permissionSets == old(result.permissionSets) + arns
    ensures result.nextToken == old(result.nextToken) && result.requestId == old(result.requestId)
  {
    var i := 0;
    while i < |arns|
      invariant 0 <= i <= |arns|
      invariant result.permissionSets == old(result.permissionSets) + arns[..i]
      invariant result.nextToken == old(result.nextToken) && result.requestId == old(result.requestId)
    {
      var self := result.AddPermissionSets(arns[i]);
      assert arns[..i + 1] == arns[..i] + [arns[i]];
      i := i + 1;
    }
    assert arns[..|arns|] == arns;
  }
}
