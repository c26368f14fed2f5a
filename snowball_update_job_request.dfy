/**
 * UpdateJobRequest: the Snowball UpdateJob request, whose fields each carry a
 * "has been set" flag raised by the field's setter.
 */
module Snowball {
  import opened AwsCore

  /** Notification, a nested model type whose members are not part of this model. */
  datatype Notification = Notification(id: int)

  /** JobResource, a nested model type whose members are not part of this model. */
  datatype JobResource = JobResource(id: int)

  /** OnDeviceServiceConfiguration, a nested model type whose members are not part of this model. */
  datatype OnDeviceServiceConfiguration = OnDeviceServiceConfiguration(id: int)

  /** ShippingOption is an enum; carried as its integer value. */
  datatype ShippingOption = ShippingOption(value: int32)

  /** SnowballCapacity is an enum; carried as its integer value. */
  datatype SnowballCapacity = SnowballCapacity(value: int32)

  class UpdateJobRequest {
    var jobId: string
    var jobIdHasBeenSet: bool
    var roleARN: string
    var roleARNHasBeenSet: bool
    var notification: Notification
    var notificationHasBeenSet: bool
    var resources: JobResource
    var resourcesHasBeenSet: bool
    var onDeviceServiceConfiguration: OnDeviceServiceConfiguration
    var onDeviceServiceConfigurationHasBeenSet: bool
    var addressId: string
    var addressIdHasBeenSet: bool
    var shippingOption: ShippingOption
    var shippingOptionHasBeenSet: bool
    var description: string
    var descriptionHasBeenSet: bool
    var snowballCapacityPreference: SnowballCapacity
    var snowballCapacityPreferenceHasBeenSet: bool
    var forwardingAddressId: string
    var forwardingAddressIdHasBeenSet: bool

    /** No field has been set. */
    predicate NothingSet()
      reads this
    {
      !jobIdHasBeenSet
      && !roleARNHasBeenSet
      && !notificationHasBeenSet
      && !resourcesHasBeenSet
      && !onDeviceServiceConfigurationHasBeenSet
      && !addressIdHasBeenSet
      && !shippingOptionHasBeenSet
      && !descriptionHasBeenSet
      && !snowballCapacityPreferenceHasBeenSet
      && !forwardingAddressIdHasBeenSet
    }

    /**
     * The default constructor: every flag starts false; strings and containers
     * start empty. Numbers and booleans get no initializer in the class body,
     * so nothing is promised about their values.
     */
    constructor ()
      ensures NothingSet()
      ensures jobId == "" && roleARN == "" && addressId == "" && description == "" && forwardingAddressId == ""
    {
      jobId := "";
      jobIdHasBeenSet := false;
      roleARN := "";
      roleARNHasBeenSet := false;
      notification := Notification(0);
      notificationHasBeenSet := false;
      resources := JobResource(0);
      resourcesHasBeenSet := false;
      onDeviceServiceConfiguration := OnDeviceServiceConfiguration(0);
      onDeviceServiceConfigurationHasBeenSet := false;
      addressId := "";
      addressIdHasBeenSet := false;
      shippingOption := ShippingOption(0);
      shippingOptionHasBeenSet := false;
      description := "";
      descriptionHasBeenSet := false;
      snowballCapacityPreference := SnowballCapacity(0);
      snowballCapacityPreferenceHasBeenSet := false;
      forwardingAddressId := "";
      forwardingAddressIdHasBeenSet := false;
    }

    /** SetJobId: stores the value, marks the field set and changes nothing else. */
    method SetJobId(value: string)
      modifies this`jobId, this`jobIdHasBeenSet
      ensures jobId == value && jobIdHasBeenSet
    {
      jobIdHasBeenSet := true;
      jobId := value;
    }

    /** WithJobId: SetJobId, returning this same object so that calls chain. */
    method WithJobId(value: string) returns (self: UpdateJobRequest)
      modifies this`jobId, this`jobIdHasBeenSet
      ensures self == this
      ensures jobId == value && jobIdHasBeenSet
    {
      SetJobId(value);
      return this;
    }

    /** SetRoleARN: stores the value, marks the field set and changes nothing else. */
    method SetRoleARN(value: string)
      modifies this`roleARN, this`roleARNHasBeenSet
      ensures roleARN == value && roleARNHasBeenSet
    {
      roleARNHasBeenSet := true;
      roleARN := value;
    }

    /** WithRoleARN: SetRoleARN, returning this same object so that calls chain. */
    method WithRoleARN(value: string) returns (self: UpdateJobRequest)
      modifies this`roleARN, this`roleARNHasBeenSet
      ensures self == this
      ensures roleARN == value && roleARNHasBeenSet
    {
      SetRoleARN(value);
      return this;
    }

    /** SetNotification: stores the value, marks the field set and changes nothing else. */
    method SetNotification(value: Notification)
      modifies this`notification, this`notificationHasBeenSet
      ensures notification == value && notificationHasBeenSet
    {
      notificationHasBeenSet := true;
      notification := value;
    }

    /** WithNotification: SetNotification, returning this same object so that calls chain. */
    method WithNotification(value: Notification) returns (self: UpdateJobRequest)
      modifies this`notification, this`notificationHasBeenSet
      ensures self == this
      ensures notification == value && notificationHasBeenSet
    {
      SetNotification(value);
      return this;
    }

    /** SetResources: stores the value, marks the field set and changes nothing else. */
    method SetResources(value: JobResource)
      modifies this`resources, this`resourcesHasBeenSet
      ensures resources == value && resourcesHasBeenSet
    {
      resourcesHasBeenSet := true;
      resources := value;
    }

    /** WithResources: SetResources, returning this same object so that calls chain. */
    method WithResources(value: JobResource) returns (self: UpdateJobRequest)
      modifies this`resources, this`resourcesHasBeenSet
      ensures self == this
      ensures resources == value && resourcesHasBeenSet
    {
      SetResources(value);
      return this;
    }

    /** SetOnDeviceServiceConfiguration: stores the value, marks the field set and changes nothing else. */
    method SetOnDeviceServiceConfiguration(value: OnDeviceServiceConfiguration)
      modifies this`onDeviceServiceConfiguration, this`onDeviceServiceConfigurationHasBeenSet
      ensures onDeviceServiceConfiguration == value && onDeviceServiceConfigurationHasBeenSet
    {
      onDeviceServiceConfigurationHasBeenSet := true;
      onDeviceServiceConfiguration := value;
    }

    /** WithOnDeviceServiceConfiguration: SetOnDeviceServiceConfiguration, returning this same object so that calls chain. */
    method WithOnDeviceServiceConfiguration(value: OnDeviceServiceConfiguration) returns (self: UpdateJobRequest)
      modifies this`onDeviceServiceConfiguration, this`onDeviceServiceConfigurationHasBeenSet
      ensures self == this
      ensures onDeviceServiceConfiguration == value && onDeviceServiceConfigurationHasBeenSet
    {
      SetOnDeviceServiceConfiguration(value);
      return this;
    }

    /** SetAddressId: stores the value, marks the field set and changes nothing else. */
    method SetAddressId(value: string)
      modifies this`addressId, this`addressIdHasBeenSet
      ensures addressId == value && addressIdHasBeenSet
    {
      addressIdHasBeenSet := true;
      addressId := value;
    }

    /** WithAddressId: SetAddressId, returning this same object so that calls chain. */
    method WithAddressId(value: string) returns (self: UpdateJobRequest)
      modifies this`addressId, this`addressIdHasBeenSet
      ensures self == this
      ensures addressId == value && addressIdHasBeenSet
    {
      SetAddressId(value);
      return this;
    }

    /** SetShippingOption: stores the value, marks the field set and changes nothing else. */
    method SetShippingOption(value: ShippingOption)
      modifies this`shippingOption, this`shippingOptionHasBeenSet
      ensures shippingOption == value && shippingOptionHasBeenSet
    {
      shippingOptionHasBeenSet := true;
      shippingOption := value;
    }

    /** WithShippingOption: SetShippingOption, returning this same object so that calls chain. */
    method WithShippingOption(value: ShippingOption) returns (self: UpdateJobRequest)
      modifies this`shippingOption, this`shippingOptionHasBeenSet
      ensures self == this
      ensures shippingOption == value && shippingOptionHasBeenSet
    {
      SetShippingOption(value);
      return this;
    }

    /** SetDescription: stores the value, marks the field set and changes nothing else. */
    method SetDescription(value: string)
      modifies this`description, this`descriptionHasBeenSet
      ensures description == value && descriptionHasBeenSet
    {
      descriptionHasBeenSet := true;
      description := value;
    }

    /** WithDescription: SetDescription, returning this same object so that calls chain. */
    method WithDescription(value: string) returns (self: UpdateJobRequest)
      modifies this`description, this`descriptionHasBeenSet
      ensures self == this
      ensures description == value && descriptionHasBeenSet
    {
      SetDescription(value);
      return this;
    }

    /** SetSnowballCapacityPreference: stores the value, marks the field set and changes nothing else. */
    method SetSnowballCapacityPreference(value: SnowballCapacity)
      modifies this`snowballCapacityPreference, this`snowballCapacityPreferenceHasBeenSet
      ensures snowballCapacityPreference == value && snowballCapacityPreferenceHasBeenSet
    {
      snowballCapacityPreferenceHasBeenSet := true;
      snowballCapacityPreference := value;
    }

    /** WithSnowballCapacityPreference: SetSnowballCapacityPreference, returning this same object so that calls chain. */
    method WithSnowballCapacityPreference(value: SnowballCapacity) returns (self: UpdateJobRequest)
      modifies this`snowballCapacityPreference, this`snowballCapacityPreferenceHasBeenSet
      ensures self == this
      ensures snowballCapacityPreference == value && snowballCapacityPreferenceHasBeenSet
    {
      SetSnowballCapacityPreference(value);
      return this;
    }

    /** SetForwardingAddressId: stores the value, marks the field set and changes nothing else. */
    method SetForwardingAddressId(value: string)
      modifies this`forwardingAddressId, this`forwardingAddressIdHasBeenSet
      ensures forwardingAddressId == value && forwardingAddressIdHasBeenSet
    {
      forwardingAddressIdHasBeenSet := true;
      forwardingAddressId := value;
    }

    /** WithForwardingAddressId: SetForwardingAddressId, returning this same object so that calls chain. */
    method WithForwardingAddressId(value: string) returns (self: UpdateJobRequest)
      modifies this`forwardingAddressId, this`forwardingAddressIdHasBeenSet
      ensures self == this
      ensures forwardingAddressId == value && forwardingAddressIdHasBeenSet
    {
      SetForwardingAddressId(value);
      return this;
    }

    /** The operation name the request is sent under, the same for every request object. */
    function GetServiceRequestName(): string {
      "UpdateJob"
    }
  }

  /** GetServiceRequestName does not depend on the request's fields: it is always "UpdateJob". */
  lemma ServiceRequestNameIsFixed(r1: UpdateJobRequest, r2: UpdateJobRequest)
    ensures r1.GetServiceRequestName() == r2.GetServiceRequestName() == "UpdateJob"
  {
  }

  /** Setting the job ID twice keeps the second value, and the flag stays raised. */
  method LastJobIdWins(request: UpdateJobRequest, first: string, second: string)
    modifies request
    ensures request.jobId == second && request.jobIdHasBeenSet
  {
    request.SetJobId(first);
    request.SetJobId(second);
  }

  /** Setting the shipping option and the description leaves the job ID and its flag as they were. */
  method OtherSettersKeepJobId(request: UpdateJobRequest, option: ShippingOption, description: string)
    modifies request
    ensures request.jobId == old(request.jobId) && request.jobIdHasBeenSet == old(request.jobIdHasBeenSet)
    ensures request.shippingOption == option && request.description == description
  {
    request.SetShippingOption(option);
    request.SetDescription(description);
  }
}
