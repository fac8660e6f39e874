/**
  The render request and response objects that the listeners and recipes
  update in place, and the template/component entity they carry.
 */
module Reports {
  import opened JsValues

  /** The `electron` options a template may carry (every field may be missing). */
  datatype ElectronOptions = ElectronOptions(
    printDelay: Value,
    timeout: Value,
    waitForJS: Value,
    width: Value,
    height: Value,
    blockJavaScript: Value,
    marginsType: Value,
    format: Value,
    printBackground: Value,
    landscape: Value)

  /** `{}` */
  const EmptyElectronOptions: ElectronOptions :=
    ElectronOptions(Undefined, Undefined, Undefined, Undefined, Undefined,
                    Undefined, Undefined, Undefined, Undefined, Undefined)

  /**
    A template or component entity. An empty `id` or `shortid` stands for a
    missing (falsy) one; `helpers` and `engine` keep the difference between
    missing and empty because the runtime concatenates or reports them.
   */
  datatype Entity = Entity(
    id: string,
    shortid: string,
    name: string,
    content: string,
    helpers: Option<string>,
    engine: Option<string>,
    electron: Option<ElectronOptions>)

  /** `req.context.http` */
  datatype Http = Http(baseUrl: Value)

  class Request {
    const contextId: string        // req.context.id
    var template: Entity           // req.template
    var systemHelpers: string      // req.context.systemHelpers
    var data: map<string, Value>   // req.data
    var http: Option<Http>         // req.context.http
    var currentPath: Value         // jsreport.currentPath on the request's proxy

    constructor (contextId: string, template: Entity, systemHelpers: string,
                 data: map<string, Value>, http: Option<Http>)
      ensures this.contextId == contextId && this.template == template
      ensures this.systemHelpers == systemHelpers && this.data == data
      ensures this.http == http && this.currentPath == Undefined
    {
      this.contextId := contextId;
      this.template := template;
      this.systemHelpers := systemHelpers;
      this.data := data;
      this.http := http;
      this.currentPath := Undefined;
    }
  }

  class Response {
    var content: string             // response.content, as text
    var meta: map<string, Value>    // response.meta

    constructor (content: string)
      ensures this.content == content && this.meta == map[]
    {
      this.content := content;
      this.meta := map[];
    }
  }
}
