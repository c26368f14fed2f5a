/**
 * AutomationRulesConfig and UpdateAutomationRulesRequestItem: Security Hub model
 * classes whose fields each carry a "has been set" flag. A setter stores the value
 * and raises the flag; the With* form does the same and returns the object for
 * chaining; AddActions appends to the action list.
 */
module SecurityHub {
  import opened AwsCore

  /** RuleStatus is an enum; its mapper is not part of this model, so it is carried as its integer value. */
  datatype RuleStatus = RuleStatus(value: int32)

  /** AutomationRulesFindingFilters, a nested model type whose members are not part of this model. */
  datatype AutomationRulesFindingFilters = AutomationRulesFindingFilters(id: int)

  /** AutomationRulesAction, a nested model type whose members are not part of this model. */
  datatype AutomationRulesAction = AutomationRulesAction(id: int)

  class AutomationRulesConfig {
    var ruleArn: string
    var ruleArnHasBeenSet: bool
    var ruleStatus: RuleStatus
    var ruleStatusHasBeenSet: bool
    var ruleOrder: int32
    var ruleOrderHasBeenSet: bool
    var ruleName: string
    var ruleNameHasBeenSet: bool
    var description: string
    var descriptionHasBeenSet: bool
    var isTerminal: bool
    var isTerminalHasBeenSet: bool
    var criteria: AutomationRulesFindingFilters
    var criteriaHasBeenSet: bool
    var actions: seq<AutomationRulesAction>
    var actionsHasBeenSet: bool
    var createdAt: DateTime
    var createdAtHasBeenSet: bool
    var updatedAt: DateTime
    var updatedAtHasBeenSet: bool
    var createdBy: string
    var createdByHasBeenSet: bool

    /** No flag that was set in the earlier state is clear in this one. */
    twostate predicate NoFlagCleared()
      reads this
    {
      (old(ruleArnHasBeenSet) ==> ruleArnHasBeenSet)
      && (old(ruleStatusHasBeenSet) ==> ruleStatusHasBeenSet)
      && (old(ruleOrderHasBeenSet) ==> ruleOrderHasBeenSet)
      && (old(ruleNameHasBeenSet) ==> ruleNameHasBeenSet)
      && (old(descriptionHasBeenSet) ==> descriptionHasBeenSet)
      && (old(isTerminalHasBeenSet) ==> isTerminalHasBeenSet)
      && (old(criteriaHasBeenSet) ==> criteriaHasBeenSet)
      && (old(actionsHasBeenSet) ==> actionsHasBeenSet)
      && (old(createdAtHasBeenSet) ==> createdAtHasBeenSet)
      && (old(updatedAtHasBeenSet) ==> updatedAtHasBeenSet)
      && (old(createdByHasBeenSet) ==> createdByHasBeenSet)
    }

    /** No field has been set. */
    predicate NothingSet()
      reads this
    {
      !ruleArnHasBeenSet
      && !ruleStatusHasBeenSet
      && !ruleOrderHasBeenSet
      && !ruleNameHasBeenSet
      && !descriptionHasBeenSet
      && !isTerminalHasBeenSet
      && !criteriaHasBeenSet
      && !actionsHasBeenSet
      && !createdAtHasBeenSet
      && !updatedAtHasBeenSet
      && !createdByHasBeenSet
    }

    /**
     * The default constructor: every flag starts false; strings and containers
     * start empty. Numbers and booleans get no initializer in the class body,
     * so nothing is promised about their values.
     */
    constructor ()
      ensures NothingSet()
      ensures ruleArn == "" && ruleName == "" && description == "" && actions == [] && createdBy == ""
    {
      ruleArn := "";
      ruleArnHasBeenSet := false;
      ruleStatus := RuleStatus(0);
      ruleStatusHasBeenSet := false;
      ruleOrderHasBeenSet := false;
      ruleName := "";
      ruleNameHasBeenSet := false;
      description := "";
      descriptionHasBeenSet := false;
      isTerminalHasBeenSet := false;
      criteria := AutomationRulesFindingFilters(0);
      criteriaHasBeenSet := false;
      actions := [];
      actionsHasBeenSet := false;
      createdAt := DateTime(0);
      createdAtHasBeenSet := false;
      updatedAt := DateTime(0);
      updatedAtHasBeenSet := false;
      createdBy := "";
      createdByHasBeenSet := false;
    }

    /** SetRuleArn: stores the value, marks the field set and changes nothing else. */
    method SetRuleArn(value: string)
      modifies this`ruleArn, this`ruleArnHasBeenSet
      ensures ruleArn == value && ruleArnHasBeenSet
      ensures NoFlagCleared()
    {
      ruleArnHasBeenSet := true;
      ruleArn := value;
    }

    /** WithRuleArn: SetRuleArn, returning this same object so that calls chain. */
    method WithRuleArn(value: string) returns (self: AutomationRulesConfig)
      modifies this`ruleArn, this`ruleArnHasBeenSet
      ensures self == this
      ensures ruleArn == value && ruleArnHasBeenSet
      ensures NoFlagCleared()
    {
      SetRuleArn(value);
      return this;
    }

    /** SetRuleStatus: stores the value, marks the field set and changes nothing else. */
    method SetRuleStatus(value: RuleStatus)
      modifies this`ruleStatus, this`ruleStatusHasBeenSet
      ensures ruleStatus == value && ruleStatusHasBeenSet
      ensures NoFlagCleared()
    {
      ruleStatusHasBeenSet := true;
      ruleStatus := value;
    }

    /** WithRuleStatus: SetRuleStatus, returning this same object so that calls chain. */
    method WithRuleStatus(value: RuleStatus) returns (self: AutomationRulesConfig)
      modifies this`ruleStatus, this`ruleStatusHasBeenSet
      ensures self == this
      ensures ruleStatus == value && ruleStatusHasBeenSet
      ensures NoFlagCleared()
    {
      SetRuleStatus(value);
      return this;
    }

    /** SetRuleOrder: stores the value, marks the field set and changes nothing else. */
    method SetRuleOrder(value: int32)
      modifies this`ruleOrder, this`ruleOrderHasBeenSet
      ensures ruleOrder == value && ruleOrderHasBeenSet
      ensures NoFlagCleared()
    {
      ruleOrderHasBeenSet := true;
      ruleOrder := value;
    }

    /** WithRuleOrder: SetRuleOrder, returning this same object so that calls chain. */
    method WithRuleOrder(value: int32) returns (self: AutomationRulesConfig)
      modifies this`ruleOrder, this`ruleOrderHasBeenSet
      ensures self == this
      ensures ruleOrder == value && ruleOrderHasBeenSet
      ensures NoFlagCleared()
    {
      SetRuleOrder(value);
      return this;
    }

    /** SetRuleName: stores the value, marks the field set and changes nothing else. */
    method SetRuleName(value: string)
      modifies this`ruleName, this`ruleNameHasBeenSet
      ensures ruleName == value && ruleNameHasBeenSet
      ensures NoFlagCleared()
    {
      ruleNameHasBeenSet := true;
      ruleName := value;
    }

    /** WithRuleName: SetRuleName, returning this same object so that calls chain. */
    method WithRuleName(value: string) returns (self: AutomationRulesConfig)
      modifies this`ruleName, this`ruleNameHasBeenSet
      ensures self == this
      ensures ruleName == value && ruleNameHasBeenSet
      ensures NoFlagCleared()
    {
      SetRuleName(value);
      return this;
    }

    /** SetDescription: stores the value, marks the field set and changes nothing else. */
    method SetDescription(value: string)
      modifies this`description, this`descriptionHasBeenSet
      ensures description == value && descriptionHasBeenSet
      ensures NoFlagCleared()
    {
      descriptionHasBeenSet := true;
      description := value;
    }

    /** WithDescription: SetDescription, returning this same object so that calls chain. */
    method WithDescription(value: string) returns (self: AutomationRulesConfig)
      modifies this`description, this`descriptionHasBeenSet
      ensures self == this
      ensures description == value && descriptionHasBeenSet
      ensures NoFlagCleared()
    {
      SetDescription(value);
      return this;
    }

    /** SetIsTerminal: stores the value, marks the field set and changes nothing else. */
    method SetIsTerminal(value: bool)
      modifies this`isTerminal, this`isTerminalHasBeenSet
      ensures isTerminal == value && isTerminalHasBeenSet
      ensures NoFlagCleared()
    {
      isTerminalHasBeenSet := true;
      isTerminal := value;
    }

    /** WithIsTerminal: SetIsTerminal, returning this same object so that calls chain. */
    method WithIsTerminal(value: bool) returns (self: AutomationRulesConfig)
      modifies this`isTerminal, this`isTerminalHasBeenSet
      ensures self == this
      ensures isTerminal == value && isTerminalHasBeenSet
      ensures NoFlagCleared()
    {
      SetIsTerminal(value);
      return this;
    }

    /** SetCriteria: stores the value, marks the field set and changes nothing else. */
    method SetCriteria(value: AutomationRulesFindingFilters)
      modifies this`criteria, this`criteriaHasBeenSet
      ensures criteria == value && criteriaHasBeenSet
      ensures NoFlagCleared()
    {
      criteriaHasBeenSet := true;
      criteria := value;
    }

    /** WithCriteria: SetCriteria, returning this same object so that calls chain. */
    method WithCriteria(value: AutomationRulesFindingFilters) returns (self: AutomationRulesConfig)
      modifies this`criteria, this`criteriaHasBeenSet
      ensures self == this
      ensures criteria == value && criteriaHasBeenSet
      ensures NoFlagCleared()
    {
      SetCriteria(value);
      return this;
    }

    /** SetActions: stores the value, marks the field set and changes nothing else. */
    method SetActions(value: seq<AutomationRulesAction>)
      modifies this`actions, this`actionsHasBeenSet
      ensures actions == value && actionsHasBeenSet
      ensures NoFlagCleared()
    {
      actionsHasBeenSet := true;
      actions := value;
    }

    /** WithActions: SetActions, returning this same object so that calls chain. */
    method WithActions(value: seq<AutomationRulesAction>) returns (self: AutomationRulesConfig)
      modifies this`actions, this`actionsHasBeenSet
      ensures self == this
      ensures actions == value && actionsHasBeenSet
      ensures NoFlagCleared()
    {
      SetActions(value);
      return this;
    }

    /** SetCreatedAt: stores the value, marks the field set and changes nothing else. */
    method SetCreatedAt(value: DateTime)
      modifies this`createdAt, this`createdAtHasBeenSet
      ensures createdAt == value && createdAtHasBeenSet
      ensures NoFlagCleared()
    {
      createdAtHasBeenSet := true;
      createdAt := value;
    }

    /** WithCreatedAt: SetCreatedAt, returning this same object so that calls chain. */
    method WithCreatedAt(value: DateTime) returns (self: AutomationRulesConfig)
      modifies this`createdAt, this`createdAtHasBeenSet
      ensures self == this
      ensures createdAt == value && createdAtHasBeenSet
      ensures NoFlagCleared()
    {
      SetCreatedAt(value);
      return this;
    }

    /** SetUpdatedAt: stores the value, marks the field set and changes nothing else. */
    method SetUpdatedAt(value: DateTime)
      modifies this`updatedAt, this`updatedAtHasBeenSet
      ensures updatedAt == value && updatedAtHasBeenSet
      ensures NoFlagCleared()
    {
      updatedAtHasBeenSet := true;
      updatedAt := value;
    }

    /** WithUpdatedAt: SetUpdatedAt, returning this same object so that calls chain. */
    method WithUpdatedAt(value: DateTime) returns (self: AutomationRulesConfig)
      modifies this`updatedAt, this`updatedAtHasBeenSet
      ensures self == this
      ensures updatedAt == value && updatedAtHasBeenSet
      ensures NoFlagCleared()
    {
      SetUpdatedAt(value);
      return this;
    }

    /** SetCreatedBy: stores the value, marks the field set and changes nothing else. */
    method SetCreatedBy(value: string)
      modifies this`createdBy, this`createdByHasBeenSet
      ensures createdBy == value && createdByHasBeenSet
      ensures NoFlagCleared()
    {
      createdByHasBeenSet := true;
      createdBy := value;
    }

    /** WithCreatedBy: SetCreatedBy, returning this same object so that calls chain. */
    method WithCreatedBy(value: string) returns (self: AutomationRulesConfig)
      modifies this`createdBy, this`createdByHasBeenSet
      ensures self == this
      ensures createdBy == value && createdByHasBeenSet
      ensures NoFlagCleared()
    {
      SetCreatedBy(value);
      return this;
    }

    /** AddActions: appends one element at the end and marks the field set, returning this same object. */
    method AddActions(value: AutomationRulesAction) returns (self: AutomationRulesConfig)
      modifies this`actions, this`actionsHasBeenSet
      ensures self == this
      ensures actions == old(actions) + [value] && actionsHasBeenSet
      ensures NoFlagCleared()
    {
      actionsHasBeenSet := true;
      actions := actions + [value];
      return this;
    }
  }

  class UpdateAutomationRulesRequestItem {
    var ruleArn: string
    var ruleArnHasBeenSet: bool
    var ruleStatus: RuleStatus
    var ruleStatusHasBeenSet: bool
    var ruleOrder: int32
    var ruleOrderHasBeenSet: bool
    var description: string
    var descriptionHasBeenSet: bool
    var ruleName: string
    var ruleNameHasBeenSet: bool
    var isTerminal: bool
    var isTerminalHasBeenSet: bool
    var criteria: AutomationRulesFindingFilters
    var criteriaHasBeenSet: bool
    var actions: seq<AutomationRulesAction>
    var actionsHasBeenSet: bool

    /** No field has been set. */
    predicate NothingSet()
      reads this
    {
      !ruleArnHasBeenSet
      && !ruleStatusHasBeenSet
      && !ruleOrderHasBeenSet
      && !descriptionHasBeenSet
      && !ruleNameHasBeenSet
      && !isTerminalHasBeenSet
      && !criteriaHasBeenSet
      && !actionsHasBeenSet
    }

    /**
     * The default constructor: every flag starts false; strings and containers
     * start empty. Numbers and booleans get no initializer in the class body,
     * so nothing is promised about their values.
     */
    constructor ()
      ensures NothingSet()
      ensures ruleArn == "" && description == "" && ruleName == "" && actions == []
    {
      ruleArn := "";
      ruleArnHasBeenSet := false;
      ruleStatus := RuleStatus(0);
      ruleStatusHasBeenSet := false;
      ruleOrderHasBeenSet := false;
      description := "";
      descriptionHasBeenSet := false;
      ruleName := "";
      ruleNameHasBeenSet := false;
      isTerminalHasBeenSet := false;
      criteria := AutomationRulesFindingFilters(0);
      criteriaHasBeenSet := false;
      actions := [];
      actionsHasBeenSet := false;
    }

    /** SetRuleArn: stores the value, marks the field set and changes nothing else. */
    method SetRuleArn(value: string)
      modifies this`ruleArn, this`ruleArnHasBeenSet
      ensures ruleArn == value && ruleArnHasBeenSet
    {
      ruleArnHasBeenSet := true;
      ruleArn := value;
    }

    /** WithRuleArn: SetRuleArn, returning this same object so that calls chain. */
    method WithRuleArn(value: string) returns (self: UpdateAutomationRulesRequestItem)
      modifies this`ruleArn, this`ruleArnHasBeenSet
      ensures self == this
      ensures ruleArn == value && ruleArnHasBeenSet
    {
      SetRuleArn(value);
      return this;
    }

    /** SetRuleStatus: stores the value, marks the field set and changes nothing else. */
    method SetRuleStatus(value: RuleStatus)
      modifies this`ruleStatus, this`ruleStatusHasBeenSet
      ensures ruleStatus == value && ruleStatusHasBeenSet
    {
      ruleStatusHasBeenSet := true;
      ruleStatus := value;
    }

    /** WithRuleStatus: SetRuleStatus, returning this same object so that calls chain. */
    method WithRuleStatus(value: RuleStatus) returns (self: UpdateAutomationRulesRequestItem)
      modifies this`ruleStatus, this`ruleStatusHasBeenSet
      ensures self == this
      ensures ruleStatus == value && ruleStatusHasBeenSet
    {
      SetRuleStatus(value);
      return this;
    }

    /** SetRuleOrder: stores the value, marks the field set and changes nothing else. */
    method SetRuleOrder(value: int32)
      modifies this`ruleOrder, this`ruleOrderHasBeenSet
      ensures ruleOrder == value && ruleOrderHasBeenSet
    {
      ruleOrderHasBeenSet := true;
      ruleOrder := value;
    }

    /** WithRuleOrder: SetRuleOrder, returning this same object so that calls chain. */
    method WithRuleOrder(value: int32) returns (self: UpdateAutomationRulesRequestItem)
      modifies this`ruleOrder, this`ruleOrderHasBeenSet
      ensures self == this
      ensures ruleOrder == value && ruleOrderHasBeenSet
    {
      SetRuleOrder(value);
      return this;
    }

    /** SetDescription: stores the value, marks the field set and changes nothing else. */
    method SetDescription(value: string)
      modifies this`description, this`descriptionHasBeenSet
      ensures description == value && descriptionHasBeenSet
    {
      descriptionHasBeenSet := true;
      description := value;
    }

    /** WithDescription: SetDescription, returning this same object so that calls chain. */
    method WithDescription(value: string) returns (self: UpdateAutomationRulesRequestItem)
      modifies this`description, this`descriptionHasBeenSet
      ensures self == this
      ensures description == value && descriptionHasBeenSet
    {
      SetDescription(value);
      return this;
    }

    /** SetRuleName: stores the value, marks the field set and changes nothing else. */
    method SetRuleName(value: string)
      modifies this`ruleName, this`ruleNameHasBeenSet
      ensures ruleName == value && ruleNameHasBeenSet
    {
      ruleNameHasBeenSet := true;
      ruleName := value;
    }

    /** WithRuleName: SetRuleName, returning this same object so that calls chain. */
    method WithRuleName(value: string) returns (self: UpdateAutomationRulesRequestItem)
      modifies this`ruleName, this`ruleNameHasBeenSet
      ensures self == this
      ensures ruleName == value && ruleNameHasBeenSet
    {
      SetRuleName(value);
      return this;
    }

    /** SetIsTerminal: stores the value, marks the field set and changes nothing else. */
    method SetIsTerminal(value: bool)
      modifies this`isTerminal, this`isTerminalHasBeenSet
      ensures isTerminal == value && isTerminalHasBeenSet
    {
      isTerminalHasBeenSet := true;
      isTerminal := value;
    }

    /** WithIsTerminal: SetIsTerminal, returning this same object so that calls chain. */
    method WithIsTerminal(value: bool) returns (self: UpdateAutomationRulesRequestItem)
      modifies this`isTerminal, this`isTerminalHasBeenSet
      ensures self == this
      ensures isTerminal == value && isTerminalHasBeenSet
    {
      SetIsTerminal(value);
      return this;
    }

    /** SetCriteria: stores the value, marks the field set and changes nothing else. */
    method SetCriteria(value: AutomationRulesFindingFilters)
      modifies this`criteria, this`criteriaHasBeenSet
      ensures criteria == value && criteriaHasBeenSet
    {
      criteriaHasBeenSet := true;
      criteria := value;
    }

    /** WithCriteria: SetCriteria, returning this same object so that calls chain. */
    method WithCriteria(value: AutomationRulesFindingFilters) returns (self: UpdateAutomationRulesRequestItem)
      modifies this`criteria, this`criteriaHasBeenSet
      ensures self == this
      ensures criteria == value && criteriaHasBeenSet
    {
      SetCriteria(value);
      return this;
    }

    /** SetActions: stores the value, marks the field set and changes nothing else. */
    method SetActions(value: seq<AutomationRulesAction>)
      modifies this`actions, this`actionsHasBeenSet
      ensures actions == value && actionsHasBeenSet
    {
      actionsHasBeenSet := true;
      actions := value;
    }

    /** WithActions: SetActions, returning this same object so that calls chain. */
    method WithActions(value: seq<AutomationRulesAction>) returns (self: UpdateAutomationRulesRequestItem)
      modifies this`actions, this`actionsHasBeenSet
      ensures self == this
      ensures actions == value && actionsHasBeenSet
    {
      SetActions(value);
      return this;
    }

    /** AddActions: appends one element at the end and marks the field set, returning this same object. */
    method AddActions(value: AutomationRulesAction) returns (self: UpdateAutomationRulesRequestItem)
      modifies this`actions, this`actionsHasBeenSet
      ensures self == this
      ensures actions == old(actions) + [value] && actionsHasBeenSet
    {
      actionsHasBeenSet := true;
      actions := actions + [value];
      return this;
    }
  }

  /**
   * A rule order outside the documented range 1..1000 is stored as given: the
   * setter checks nothing.
   */
  method RuleOrderIsNotRangeChecked(config: AutomationRulesConfig, order: int32)
    requires order < 1 || 1000 < order
    modifies config
    ensures config.ruleOrder == order && config.ruleOrderHasBeenSet
  {
    config.SetRuleOrder(order);
  }

  /**
   * Building a configuration by chaining With* calls and AddActions: each call
   * returns the same object, so every value lands in it, and the action added
   * after WithActions follows the replaced list.
   */
  method BuildConfig(arn: string, order: int32, initial: seq<AutomationRulesAction>, extra: AutomationRulesAction)
    returns (config: AutomationRulesConfig)
    ensures config.ruleArn == arn && config.ruleArnHasBeenSet
    ensures config.ruleOrder == order && config.ruleOrderHasBeenSet
    ensures config.actions == initial + [extra] && config.actionsHasBeenSet
    ensures !config.ruleNameHasBeenSet && !config.criteriaHasBeenSet && !config.createdAtHasBeenSet
  {
    config := new AutomationRulesConfig();
    var c1 := config.WithRuleArn(arn);
    var c2 := c1.WithRuleOrder(order);
    var c3 := c2.WithActions(initial);
    var c4 := c3.AddActions(extra);
  }

  /** SetActions replaces the whole list, whatever AddActions appended before. */
  method SetActionsReplaces(item: UpdateAutomationRulesRequestItem, a: AutomationRulesAction,
                            replacement: seq<AutomationRulesAction>)
    modifies item
    ensures item.actions == replacement && item.actionsHasBeenSet
  {
    var self := item.AddActions(a);
    item.SetActions(replacement);
  }
}
