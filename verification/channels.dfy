/** src/Utils/channels.py: first-match lookups by name that raise `CodeError`. */
module Channels {
  import opened Wrappers
  import opened Platform

  /** `get_channel_by_name`: the first text channel of the guild with that name. */
  function GetChannelByName(chs: seq<Channel>, name: string): (r: Result<Channel>)
    ensures r.Ok? ==> exists k :: 0 <= k < |chs| && chs[k] == r.value && IsTextNamed(r.value, name)
                                  && forall j :: 0 <= j < k ==> !IsTextNamed(chs[j], name)
    ensures r.Err? <==> forall j :: 0 <= j < |chs| ==> !IsTextNamed(chs[j], name)
    ensures r.Err? ==> r.error == CodeError("Channel " + name + " not found")
  {
    match FindTextChannelByName(chs, name)
    case Some(c) => Ok(c)
    case None => Err(CodeError("Channel " + name + " not found"))
  }

  /** `get_category_by_name`: the first category of the guild with that name. */
  function GetCategoryByName(cats: seq<Category>, name: string): (r: Result<Category>)
    ensures r.Ok? ==> exists k :: 0 <= k < |cats| && cats[k] == r.value && r.value.name == name
                                  && forall j :: 0 <= j < k ==> cats[j].name != name
    ensures r.Err? <==> forall j :: 0 <= j < |cats| ==> cats[j].name != name
    ensures r.Err? ==> r.error == CodeError("Category " + name + " not found")
  {
    match FindCategoryByName(cats, name)
    case Some(c) => Ok(c)
    case None => Err(CodeError("Category " + name + " not found"))
  }
}
