/**
 * CreateDataLakeRequest: the Security Lake CreateDataLake request, with a list of
 * configurations and a role ARN, each with a "has been set" flag.
 */
module SecurityLake {
  import opened AwsCore

  /** DataLakeConfiguration, a nested model type whose members are not part of this model. */
  datatype DataLakeConfiguration = DataLakeConfiguration(id: int)

  class CreateDataLakeRequest {
    var configurations: seq<DataLakeConfiguration>
    var configurationsHasBeenSet: bool
    var metaStoreManagerRoleArn: string
    var metaStoreManagerRoleArnHasBeenSet: bool

    /** No field has been set. */
    predicate NothingSet()
      reads this
    {
      !configurationsHasBeenSet
      && !metaStoreManagerRoleArnHasBeenSet
    }

    /**
     * The default constructor: every flag starts false; strings and containers
     * start empty. Numbers and booleans get no initializer in the class body,
     * so nothing is promised about their values.
     */
    constructor ()
      ensures NothingSet()
      ensures configurations == [] && metaStoreManagerRoleArn == ""
    {
      configurations := [];
      configurationsHasBeenSet := false;
      metaStoreManagerRoleArn := "";
      metaStoreManagerRoleArnHasBeenSet := false;
    }

    /** SetConfigurations: stores the value, marks the field set and changes nothing else. */
    method SetConfigurations(value: seq<DataLakeConfiguration>)
      modifies this`configurations, this`configurationsHasBeenSet
      ensures configurations == value && configurationsHasBeenSet
    {
      configurationsHasBeenSet := true;
      configurations := value;
    }

    /** WithConfigurations: SetConfigurations, returning this same object so that calls chain. */
    method WithConfigurations(value: seq<DataLakeConfiguration>) returns (self: CreateDataLakeRequest)
      modifies this`configurations, this`configurationsHasBeenSet
      ensures self == this
      ensures configurations == value && configurationsHasBeenSet
    {
      SetConfigurations(value);
      return this;
    }

    /** SetMetaStoreManagerRoleArn: stores the value, marks the field set and changes nothing else. */
    method SetMetaStoreManagerRoleArn(value: string)
      modifies this`metaStoreManagerRoleArn, this`metaStoreManagerRoleArnHasBeenSet
      ensures metaStoreManagerRoleArn == value && metaStoreManagerRoleArnHasBeenSet
    {
      metaStoreManagerRoleArnHasBeenSet := true;
      metaStoreManagerRoleArn := value;
    }

    /** WithMetaStoreManagerRoleArn: SetMetaStoreManagerRoleArn, returning this same object so that calls chain. */
    method WithMetaStoreManagerRoleArn(value: string) returns (self: CreateDataLakeRequest)
      modifies this`metaStoreManagerRoleArn, this`metaStoreManagerRoleArnHasBeenSet
      ensures self == this
      ensures metaStoreManagerRoleArn == value && metaStoreManagerRoleArnHasBeenSet
    {
      SetMetaStoreManagerRoleArn(value);
      return this;
    }

    /** AddConfigurations: appends one element at the end and marks the field set, returning this same object. */
    method AddConfigurations(value: DataLakeConfiguration) returns (self: CreateDataLakeRequest)
      modifies this`configurations, this`configurationsHasBeenSet
      ensures self == this
      ensures configurations == old(configurations) + [value] && configurationsHasBeenSet
    {
      configurationsHasBeenSet := true;
      configurations := configurations + [value];
      return this;
    }

    /** The operation name the request is sent under, the same for every request object. */
    function GetServiceRequestName(): string {
      "CreateDataLake"
    }
  }

  /** GetServiceRequestName does not depend on the request's fields: it is always "CreateDataLake". */
  lemma ServiceRequestNameIsFixed(r1: CreateDataLakeRequest, r2: CreateDataLakeRequest)
    ensures r1.GetServiceRequestName() == r2.GetServiceRequestName() == "CreateDataLake"
  {
  }
}
