/** The validation every manager inherits from `BaseManager`
    (pilot/base/manager.py): a subclass must name its configuration section
    and its default section. */
module Manager {
  import opened Wrappers
  import opened Config

  /** The section attributes right after `BaseManager.__init__`: both None,
      for the subclass to set. */
  function Initial(): (p: SectionPair)
    ensures !IsSet(p.sectionName) && !IsSet(p.defaultSection)
  {
    SectionPair(None, None)
  }

  /** `_check_required_attributes`: passes exactly when both attributes are
      truthy; `section_name` is checked first, and each failure is an
      AttributeError naming the class and the missing attribute. */
  function CheckRequiredAttributes(className: string, p: SectionPair): (r: Outcome)
    ensures r.Pass? <==> IsSet(p.sectionName) && IsSet(p.defaultSection)
    ensures !IsSet(p.sectionName) ==>
      r == Fail(AttributeError(className + " deve definir 'section_name'"))
    ensures IsSet(p.sectionName) && !IsSet(p.defaultSection) ==>
      r == Fail(AttributeError(className + " deve definir 'default_section'"))
  {
    if !IsSet(p.sectionName) then Fail(AttributeError(className + " deve definir 'section_name'"))
    else if !IsSet(p.defaultSection) then Fail(AttributeError(className + " deve definir 'default_section'"))
    else Pass
  }

  /** A manager whose subclass sets neither attribute fails the check, on
      `section_name`. */
  lemma InitialFailsCheck(className: string)
    ensures CheckRequiredAttributes(className, Initial())
      == Fail(AttributeError(className + " deve definir 'section_name'"))
  {
  }

  /** An empty name counts as missing, as Python's falsy "" does. */
  lemma EmptyNameFailsCheck(className: string, defaultSection: Option<string>)
    ensures CheckRequiredAttributes(className, SectionPair(Some(""), defaultSection)).Fail?
  {
  }
}
