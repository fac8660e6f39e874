/**
  How a failed evaluation's error is decorated before it is rethrown: once
  by the `component` helper for the component that failed, and once more by
  the top-level template run for the template being rendered.
 */
module ErrorEnrichment {
  import opened JsValues
  import opened Reports

  const ContentProperty: string := "content"
  const HelpersProperty: string := "helpers"
  const AnonymousPath: string := "anonymous"

  function TemplateErrorPrefix(engineName: string, templatePath: string): string {
    "Error when evaluating engine " + engineName + " for template " + templatePath + "\n"
  }

  function ComponentErrorPrefix(path: Value): string {
    "Error when evaluating templating engine for component " + Stringify(path) + "\n"
  }

  /**
    The decoration the top-level run gives an error, once the template path
    is known and, where it is consulted, the template found at that path.
    The steps are the source's, in its order: attach a snapshot, prefix the
    message, tag the property, copy a nested entity.
   */
  function EnrichTemplateError(e: JsError, engineName: string, templatePath: string,
                               found: Option<Entity>, content: string): (r: JsError)
    ensures r.message == TemplateErrorPrefix(engineName, templatePath) + e.message
    ensures r.statusCode == e.statusCode && r.weak == e.weak
    ensures r.property == Some(HelpersProperty) <==>
              e.property == Some(HelpersProperty) || (e.entity.None? && e.property != Some(ContentProperty))
    ensures r.property != Some(HelpersProperty) ==> r.property == e.property
    ensures e.entity.Some? ==> r.entity == e.entity
    ensures e.entity.None? && r.entity.Some? <==>
              e.entity.None? && templatePath != AnonymousPath && found.Some?
    ensures r.entity.Some? && e.entity.None? ==>
              r.entity == Some(Snapshot(found.value.shortid, found.value.name, content))
  {
    var nested := e.entity.Some?;
    var withEntity :=
      if templatePath != AnonymousPath && !nested && found.Some?
      then e.(entity := Some(Snapshot(found.value.shortid, found.value.name, content)))
      else e;
    var withMessage := withEntity.(message := TemplateErrorPrefix(engineName, templatePath) + withEntity.message);
    var tagged :=
      if !nested && withMessage.property != Some(ContentProperty)
      then withMessage.(property := Some(HelpersProperty))
      else withMessage;
    // `{ ...e.entity }` copies the nested snapshot; on values the copy is the snapshot itself
    if nested then tagged.(entity := Some(tagged.entity.value)) else tagged
  }

  /**
    The decoration the `component` helper gives an error thrown while its
    component was evaluated. An error that already names an entity comes
    from a deeper component and passes through untouched.
   */
  function EnrichComponentError(e: JsError, path: Value, component: Entity): (r: JsError)
    ensures e.entity.Some? ==> r == e
    ensures e.entity.None? ==> r.message == ComponentErrorPrefix(path) + e.message
    ensures e.entity.None? ==> r.entity == Some(Snapshot(component.shortid, component.name, component.content))
    ensures e.entity.None? ==>
              r.property == (if e.property == Some(ContentProperty) then e.property else Some(HelpersProperty))
    ensures r.statusCode == e.statusCode && r.weak == e.weak
  {
    if e.entity.None? then
      var described := e.(message := ComponentErrorPrefix(path) + e.message,
                           entity := Some(Snapshot(component.shortid, component.name, component.content)));
      if described.property != Some(ContentProperty) then described.(property := Some(HelpersProperty))
      else described
    else e
  }

  /**
    An error raised inside a component and decorated there keeps the
    component's snapshot and tag when the template run decorates it again,
    and its message reads as a chain: template line, component line, cause.
   */
  lemma ComponentErrorChainsThroughTemplate(e: JsError, path: Value, component: Entity,
                                            engineName: string, templatePath: string,
                                            found: Option<Entity>, content: string)
    requires e.entity.None?
    ensures var r := EnrichTemplateError(EnrichComponentError(e, path, component),
                                         engineName, templatePath, found, content);
            && r.message == TemplateErrorPrefix(engineName, templatePath) + ComponentErrorPrefix(path) + e.message
            && r.entity == Some(Snapshot(component.shortid, component.name, component.content))
            && r.property == (if e.property == Some(ContentProperty) then e.property else Some(HelpersProperty))
  {
    var inner := EnrichComponentError(e, path, component);
    assert TemplateErrorPrefix(engineName, templatePath) + inner.message
        == TemplateErrorPrefix(engineName, templatePath) + ComponentErrorPrefix(path) + e.message;
  }
}
